/** What the load/unload pass and the change orchestration promise, proved of
    the functions the class methods are verified against. */
module ChangeProperties {
  import opened Config
  import opened Geometry
  import opened Motion
  import opened Sequencer

  /** The approach stops the spindle, queues the raise, the traverse, the descent
      and the plunge, and starts the spindle; nothing waits for the planner, so
      the machine has not moved yet and all four targets are still queued. */
  lemma ApproachRun(m: Machine, s: Settings, load: bool, start: Point, pocket: Point)
    ensures Run(m, Approach(s, load, start, pocket)) == Machine(m.pos, m.queue + Path(s, start, pocket), true)
  {
    var a := Approach(s, load, start, pocket);
    var path := Path(s, start, pocket);
    assert a == [a[0], a[1], a[2]] + [a[3], a[4], a[5]];
    RunTriple(m, a[0], a[1], a[2]);
    var over := Run(m, [a[0], a[1], a[2]]);
    assert over == Machine(m.pos, m.queue + [path[0]] + [path[1]], false);
    RunTriple(over, a[3], a[4], a[5]);
    RunConcat(m, [a[0], a[1], a[2]], [a[3], a[4], a[5]]);
    assert m.queue + [path[0]] + [path[1]] + [path[2]] + [path[3]] == m.queue + path;
  }

  /** The spindle is started (my_plugin.c:355-359) while the raise, the traverse
      and the descent may all still be queued: no synchronise precedes it. */
  lemma SpindleStartsBeforeQueueDrains(m: Machine, s: Settings, load: bool, start: Point, pocket: Point)
    ensures Run(m, Approach(s, load, start, pocket)[..5]) == Machine(m.pos, m.queue + Path(s, start, pocket)[..3], true)
  {
    var a := Approach(s, load, start, pocket);
    var path := Path(s, start, pocket);
    assert a[..5] == [a[0], a[1], a[2]] + [a[3], a[4]];
    RunTriple(m, a[0], a[1], a[2]);
    var over := Run(m, [a[0], a[1], a[2]]);
    assert over == Machine(m.pos, m.queue + [path[0]] + [path[1]], false);
    RunPair(over, a[3], a[4]);
    RunConcat(m, [a[0], a[1], a[2]], [a[3], a[4]]);
    assert m.queue + [path[0]] + [path[1]] + [path[2]] == m.queue + path[..3];
  }

  /** The approach is safe exactly when the machine is settled and already over
      the pocket: any traverse is still queued when the spindle starts. */
  lemma ApproachSafety(m: Machine, s: Settings, load: bool, pocket: Point)
    ensures SafeRun(m, Approach(s, load, m.pos, pocket)) <==>
      Settled(m) && pocket.x == m.pos.x && pocket.y == m.pos.y
  {
    var a := Approach(s, load, m.pos, pocket);
    if Settled(m) && pocket.x == m.pos.x && pocket.y == m.pos.y {
      ColumnMovesSafe(m, a, m.pos.x, m.pos.y);
    }
    if SafeRun(m, a) {
      SafePrefix(m, a, 5);
      SafeRunEnds(m, a[..5]);
      SpindleStartsBeforeQueueDrains(m, s, load, m.pos, pocket);
      var mid := Run(m, a[..5]);
      var n := |m.queue|;
      assert forall i | 0 <= i < n :: mid.queue[i] == m.queue[i];
      assert mid.queue[n + 1] == pocket.(z := s.zSafeClearance as real);
    }
  }

  /** The recognition check waits for the planner after its first probe move, so it
      ends with the queue drained at the last probe height when the second reading
      is blocked; otherwise it stops the spindle and queues the raise to clearance. */
  lemma RecognizeRun(m: Machine, s: Settings, pocket: Point, sensor: seq<bool>)
    ensures var zone := pocket.(z := if Sample(sensor, 0) then s.detectZone1 else s.detectZone2);
      Run(m, Recognize(s, pocket, sensor).effects) ==
        if Sample(sensor, 1) then Machine(zone, [], m.spindleOn)
        else Machine(zone, [pocket.(z := s.zSafeClearance as real)], false)
  {
    var first, second := Sample(sensor, 0), Sample(sensor, 1);
    var probe, retry := Probe(s, pocket, first), Retry(s, pocket, first);
    RunTriple(m, probe[0], probe[1], probe[2]);
    var afterProbe := Run(m, probe);
    assert afterProbe == Machine(pocket.(z := s.detectZone2), [], m.spindleOn);
    if first {
      RunTriple(afterProbe, retry[0], retry[1], retry[2]);
    }
    RunConcat(m, probe, retry);
    var afterRetry := Run(m, probe + retry);
    assert afterRetry == Machine(pocket.(z := if first then s.detectZone1 else s.detectZone2), [], m.spindleOn);
    RunSnoc(m, probe + retry, SensorRead(second));
    var verdict := probe + retry + [SensorRead(second)];
    if !second {
      var retract := Retract(s, pocket);
      RunPair(Run(m, verdict), retract[0], retract[1]);
      RunConcat(m, verdict, retract);
    }
  }

  /** Every move of the recognition check stays over the pocket. */
  lemma RecognizeSteps(s: Settings, pocket: Point, sensor: seq<bool>)
    ensures forall e | e in Recognize(s, pocket, sensor).effects && e.Move? ::
      e.target.x == pocket.x && e.target.y == pocket.y
  {
  }

  /** Carrying out a pass's trace leaves the machine where `PassExit` says: the
      position the next pass reads, and whether the spindle still turns. */
  lemma PassExitIsRun(s: Settings, load: bool, cur: ToolData, next: Option<ToolData>,
                      m: Machine, sensor: seq<bool>)
    requires next.Some? || (!load && cur.toolId == 0)
    ensures Run(m, PassSpec(s, load, cur, next, m.pos, sensor).effects) == PassExit(s, load, cur, next, m, sensor)
  {
    var o := PassSpec(s, load, cur, next, m.pos, sensor);
    if !load && cur.toolId == 0 {
      assert o.effects == [];
    } else if next.value.toolId > s.numberOfPockets {
      RunSnoc(m, [], o.effects[0]);
      assert o.effects == [] + [o.effects[0]];
    } else {
      var pocket := PassPocket(s, load, cur, next.value);
      EngagedPassRun(s, load, m, pocket, sensor);
      if !s.toolRecognition {
        assert o.effects == Approach(s, load, m.pos, pocket) + [Sync];
      } else if Recognize(s, pocket, sensor).passed {
        assert o.effects == Approach(s, load, m.pos, pocket) + Recognize(s, pocket, sensor).effects + [Sync];
      } else {
        assert o.effects == Approach(s, load, m.pos, pocket) + Recognize(s, pocket, sensor).effects;
      }
    }
  }

  /** The three ways a pass that reached the pocket can end, carried out from `m`. */
  lemma EngagedPassRun(s: Settings, load: bool, m: Machine, pocket: Point, sensor: seq<bool>)
    ensures var approach := Approach(s, load, m.pos, pocket);
      var check := Recognize(s, pocket, sensor);
      && Run(m, approach + [Sync]) == Machine(pocket.(z := s.zEngagement as real), [], true)
      && (!check.passed ==>
            Run(m, approach + check.effects) ==
            Machine(pocket.(z := if Sample(sensor, 0) then s.detectZone1 else s.detectZone2), [], true))
      && (check.passed ==>
            Run(m, approach + check.effects + [Sync]) == Machine(pocket.(z := s.zSafeClearance as real), [], false))
      && (check.passed <==> !Sample(sensor, 1))
  {
    var approach := Approach(s, load, m.pos, pocket);
    var check := Recognize(s, pocket, sensor);
    ApproachRun(m, s, load, m.pos, pocket);
    var engaged := Run(m, approach);
    var q := m.queue + Path(s, m.pos, pocket);
    assert q[|q| - 1] == pocket.(z := s.zEngagement as real);
    RunSnoc(m, approach, Sync);
    RecognizeRun(engaged, s, pocket, sensor);
    RunConcat(m, approach, check.effects);
    RunSnoc(m, approach + check.effects, Sync);
  }

  /** A pass that moves finds the machine settled in the column of the pocket it
      works at, so no traverse is needed. */
  predicate AlreadyOverPocket(s: Settings, load: bool, cur: ToolData, next: Option<ToolData>, m: Machine)
    requires next.Some? || (!load && cur.toolId == 0)
  {
    Proceeds(s, load, cur, next) ==>
      var pocket := PassPocket(s, load, cur, next.value);
      Settled(m) && pocket.x == m.pos.x && pocket.y == m.pos.y
  }

  /** A pass never has a sideways move queued or executing while the spindle
      turns exactly when the machine starts safe and, if the pass moves, is already
      settled over the pocket: any traverse the pass needs is unsafe. */
  lemma PassIsSafe(s: Settings, load: bool, cur: ToolData, next: Option<ToolData>,
                   m: Machine, sensor: seq<bool>)
    requires next.Some? || (!load && cur.toolId == 0)
    ensures SafeRun(m, PassSpec(s, load, cur, next, m.pos, sensor).effects) <==>
      Safe(m) && AlreadyOverPocket(s, load, cur, next, m)
  {
    var o := PassSpec(s, load, cur, next, m.pos, sensor);
    if !load && cur.toolId == 0 {
      assert o.effects == [];
    } else if next.value.toolId > s.numberOfPockets {
      HookSafety(m, o.effects[0]);
      assert o.effects == [o.effects[0]];
    } else {
      var pocket := PassPocket(s, load, cur, next.value);
      var approach := Approach(s, load, m.pos, pocket);
      var rest;
      if !s.toolRecognition {
        rest := [Sync];
      } else {
        var check := Recognize(s, pocket, sensor);
        rest := if check.passed then check.effects + [Sync] else check.effects;
        RecognizeSteps(s, pocket, sensor);
      }
      assert o.effects == approach + rest;
      EngagedRestSafety(s, load, m, pocket, rest);
      assert AlreadyOverPocket(s, load, cur, next, m) <==> Settled(m) && pocket.x == m.pos.x && pocket.y == m.pos.y;
    }
  }

  /** A call that neither moves the machine nor touches the spindle keeps it as safe as it was. */
  lemma HookSafety(m: Machine, e: Effect)
    requires !e.Move? && !e.Sync? && !e.SpindleSet?
    ensures SafeRun(m, [e]) <==> Safe(m)
  {
    RunSnoc(m, [], e);
    assert [e] == [] + [e];
  }

  /** An approach followed by moves that stay over the pocket is safe exactly when
      the approach is. */
  lemma EngagedRestSafety(s: Settings, load: bool, m: Machine, pocket: Point, rest: seq<Effect>)
    requires forall e | e in rest && e.Move? :: e.target.x == pocket.x && e.target.y == pocket.y
    ensures SafeRun(m, Approach(s, load, m.pos, pocket) + rest) <==>
      Settled(m) && pocket.x == m.pos.x && pocket.y == m.pos.y
  {
    var approach := Approach(s, load, m.pos, pocket);
    SafeConcat(m, approach, rest);
    ApproachSafety(m, s, load, pocket);
    if Settled(m) && pocket.x == m.pos.x && pocket.y == m.pos.y {
      ApproachRun(m, s, load, m.pos, pocket);
      EngagedInColumn(m, s, pocket);
      ColumnMovesSafe(Run(m, approach), rest, pocket.x, pocket.y);
    }
  }

  /** Once queued, the approach keeps a settled machine that is over the pocket in
      the pocket's column. */
  lemma EngagedInColumn(m: Machine, s: Settings, pocket: Point)
    requires Settled(m) && pocket.x == m.pos.x && pocket.y == m.pos.y
    ensures InColumn(Machine(m.pos, m.queue + Path(s, m.pos, pocket), true), pocket.x, pocket.y)
  {
    var q := m.queue + Path(s, m.pos, pocket);
    forall i | 0 <= i < |q| ensures q[i].x == pocket.x && q[i].y == pocket.y {
      if i >= |m.queue| {
        assert q[i] == Path(s, m.pos, pocket)[i - |m.queue|];
      }
    }
  }

  /** A change's trace is safe exactly when both passes are, the load pass from
      where the unload pass left the machine. */
  lemma ChangeSafetySplit(m: Machine, u: seq<Effect>, l: seq<Effect>)
    ensures SafeRun(m, [CoolantOff] + u + l + [MeasureTool]) <==>
      SafeRun(m, u) && SafeRun(Run(m, u), l)
  {
    var a := [CoolantOff];
    var b := a + u;
    var c := b + l;
    RunSnoc(m, [], CoolantOff);
    assert a == [] + [CoolantOff];
    SafeConcat(m, a, u);
    if SafeRun(m, u) {
      SafePrefix(m, u, 0);
      assert u[..0] == [];
    }
    RunConcat(m, a, u);
    SafeConcat(m, b, l);
    if SafeRun(m, c) {
      SafeRunEnds(m, c);
    }
    RunSnoc(Run(m, c), [], MeasureTool);
    assert [MeasureTool] == [] + [MeasureTool];
    SafeConcat(m, c, [MeasureTool]);
  }

  /** A whole tool change is safe exactly when the machine starts safe and each
      pass that moves finds the machine already over its pocket; the load pass
      starts where the unload pass left the machine. */
  lemma ChangeIsSafe(s: Settings, cur: ToolData, next: Option<ToolData>, m: Machine,
                     unloadSensor: seq<bool>, loadSensor: seq<bool>)
    ensures SafeRun(m, ChangeSpec(s, cur, next, m, unloadSensor, loadSensor).effects) <==>
      Safe(m) &&
      (next.None? || cur.toolId == next.value.toolId ||
        (AlreadyOverPocket(s, false, cur, next, m) &&
         AlreadyOverPocket(s, true, PassSpec(s, false, cur, next, m.pos, unloadSensor).current, next,
                           PassExit(s, false, cur, next, m, unloadSensor))))
  {
    if next.Some? && cur.toolId != next.value.toolId {
      var unload := PassSpec(s, false, cur, next, m.pos, unloadSensor);
      var m1 := PassExit(s, false, cur, next, m, unloadSensor);
      var load := PassSpec(s, true, unload.current, next, m1.pos, loadSensor);
      ChangeSafetySplit(m, unload.effects, load.effects);
      PassExitIsRun(s, false, cur, next, m, unloadSensor);
      PassIsSafe(s, false, cur, next, m, unloadSensor);
      PassIsSafe(s, true, unload.current, next, m1, loadSensor);
      if SafeRun(m, unload.effects) {
        SafeRunEnds(m, unload.effects);
      }
    }
  }

  /** Carrying out a whole change's trace leaves the machine where `ChangeExit` says. */
  lemma ChangeExitIsRun(s: Settings, cur: ToolData, next: Option<ToolData>, m: Machine,
                        unloadSensor: seq<bool>, loadSensor: seq<bool>)
    ensures Run(m, ChangeSpec(s, cur, next, m, unloadSensor, loadSensor).effects)
         == ChangeExit(s, cur, next, m, unloadSensor, loadSensor)
  {
    if next.Some? && cur.toolId != next.value.toolId {
      var unload := PassSpec(s, false, cur, next, m.pos, unloadSensor);
      var m1 := PassExit(s, false, cur, next, m, unloadSensor);
      var load := PassSpec(s, true, unload.current, next, m1.pos, loadSensor);
      var a := [CoolantOff];
      RunSnoc(m, [], CoolantOff);
      PassExitIsRun(s, false, cur, next, m, unloadSensor);
      RunConcat(m, a, unload.effects);
      PassExitIsRun(s, true, unload.current, next, m1, loadSensor);
      RunConcat(m, a + unload.effects, load.effects);
      RunSnoc(m, a + unload.effects + load.effects, MeasureTool);
    }
  }

  /** Unloading with no tool mounted is a silent success: no effect, no tool update. */
  lemma UnloadWithoutToolIsNoOp(s: Settings, cur: ToolData, next: Option<ToolData>,
                                start: Point, sensor: seq<bool>)
    requires cur.toolId == 0
    ensures PassSpec(s, false, cur, next, start, sensor) == Outcome(Ok, [], cur)
  {
  }

  /** A selection beyond the magazine hands the pass to exactly one manual hook:
      no motion, no spindle command, no tool update. */
  lemma OutOfRangeGoesManual(s: Settings, load: bool, cur: ToolData, next: Option<ToolData>,
                             start: Point, sensor: seq<bool>)
    requires load || cur.toolId != 0
    requires next.Some? && next.value.toolId > s.numberOfPockets
    ensures PassSpec(s, load, cur, next, start, sensor) ==
      Outcome(Ok, [if load then ManualLoad else ManualUnload], cur)
  {
  }

  /** The unload pass's range check reads the selection, not the mounted tool:
      it goes manual exactly when the selected tool is beyond the magazine. */
  lemma UnloadRangeCheckReadsSelection(s: Settings, cur: ToolData, next: Option<ToolData>,
                                       start: Point, sensor: seq<bool>)
    requires cur.toolId != 0 && next.Some?
    ensures PassSpec(s, false, cur, next, start, sensor).effects == [ManualUnload]
        <==> next.value.toolId > s.numberOfPockets
  {
    var o := PassSpec(s, false, cur, next, start, sensor);
    if next.value.toolId <= s.numberOfPockets {
      assert o.effects[0] == StopSpindle;
    }
  }

  /** A pass that gets past the early exits stops the spindle before any move,
      raises Z only, traverses at clearance height to the pocket of the tool
      being loaded or unloaded, descends to the start height, and only then
      starts the spindle (clockwise at pickup speed to load, counter-clockwise
      at drop-off speed to unload) and plunges to engagement height. */
  lemma MotionOrder(s: Settings, load: bool, cur: ToolData, next: Option<ToolData>,
                    start: Point, sensor: seq<bool>)
    requires Proceeds(s, load, cur, next)
    ensures var o := PassSpec(s, load, cur, next, start, sensor);
      var pocket := ToolLocation(s, if load then next.value.toolId else cur.toolId);
      var feed := s.engagementFeedRate as real;
      && |o.effects| >= 7
      && o.effects[0] == SpindleSet(false, false, 0.0)
      && o.effects[1] == Move(Point(start.x, start.y, s.zSafeClearance as real), feed, false)
      && o.effects[2] == Move(Point(pocket.x, pocket.y, s.zSafeClearance as real), feed, false)
      && o.effects[3] == Move(Point(pocket.x, pocket.y, s.startHeight), feed, false)
      && o.effects[4] == (if load then SpindleSet(true, false, s.pickupRpm as real)
                          else SpindleSet(true, true, s.dropoffRpm as real))
      && o.effects[5] == Move(Point(pocket.x, pocket.y, s.zEngagement as real), feed, false)
  {
  }

  /** Every move of every pass runs at the engagement feed rate with rapid motion off. */
  lemma MovesUseEngagementFeed(s: Settings, load: bool, cur: ToolData, next: Option<ToolData>,
                               start: Point, sensor: seq<bool>)
    requires next.Some? || (!load && cur.toolId == 0)
    ensures forall e | e in PassSpec(s, load, cur, next, start, sensor).effects && e.Move? ::
      e.feed == s.engagementFeedRate as real && !e.rapid
  {
  }

  /** What the approach contains: one stop, no synchronise, no sensor reading, no coolant. */
  lemma ApproachCounts(s: Settings, load: bool, start: Point, pocket: Point)
    ensures var a := Approach(s, load, start, pocket);
      && Occurrences(a, StopSpindle) == 1 && Occurrences(a, Sync) == 0
      && Occurrences(a, SensorRead(true)) == 0 && Occurrences(a, SensorRead(false)) == 0
      && CoolantOff !in a
  {
    var a := Approach(s, load, start, pocket);
    OccurrencesNone(a, Sync);
    OccurrencesNone(a, SensorRead(true));
    OccurrencesNone(a, SensorRead(false));
    assert a == [a[0]] + a[1..];
    OccurrencesSingle(a[0], StopSpindle);
    OccurrencesNone(a[1..], StopSpindle);
    OccurrencesConcat([a[0]], a[1..], StopSpindle);
  }

  /** What the recognition check contains: two readings, one synchronise per probe,
      no coolant command. */
  lemma RecognizeCounts(s: Settings, pocket: Point, sensor: seq<bool>)
    ensures var es := Recognize(s, pocket, sensor).effects;
      && Occurrences(es, SensorRead(true)) + Occurrences(es, SensorRead(false)) == 2
      && Occurrences(es, SensorRead(true)) ==
           (if Sample(sensor, 0) then 1 else 0) + (if Sample(sensor, 1) then 1 else 0)
      && Occurrences(es, Sync) == 1 + (if Sample(sensor, 0) then 1 else 0)
      && CoolantOff !in es
  {
    var first, second := Sample(sensor, 0), Sample(sensor, 1);
    var probe, retry, read := Probe(s, pocket, first), Retry(s, pocket, first), [SensorRead(second)];
    var tail := if second then [] else Retract(s, pocket);
    assert Recognize(s, pocket, sensor).effects == probe + retry + read + tail;
    RecognizeCount(s, pocket, first, second, Sync);
    RecognizeCount(s, pocket, first, second, SensorRead(true));
    RecognizeCount(s, pocket, first, second, SensorRead(false));
  }

  /** Counting one effect across the four parts of the recognition check. */
  lemma RecognizeCount(s: Settings, pocket: Point, first: bool, second: bool, e: Effect)
    requires e == Sync || e.SensorRead?
    ensures var tail := if second then [] else Retract(s, pocket);
      Occurrences(Probe(s, pocket, first) + Retry(s, pocket, first) + [SensorRead(second)] + tail, e) ==
        (if e == Sync then 1 + (if first then 1 else 0) else 0)
        + (if e == SensorRead(first) then 1 else 0) + (if e == SensorRead(second) then 1 else 0)
  {
    var probe, retry := Probe(s, pocket, first), Retry(s, pocket, first);
    var tail := if second then [] else Retract(s, pocket);
    OccurrencesSplit(probe, retry, [SensorRead(second)], tail, e);
    OccurrencesTriple(probe[0], probe[1], probe[2], e);
    assert probe == [probe[0], probe[1], probe[2]];
    if first {
      OccurrencesTriple(retry[0], retry[1], retry[2], e);
      assert retry == [retry[0], retry[1], retry[2]];
    }
    OccurrencesSingle(SensorRead(second), e);
    OccurrencesNone(tail, e);
  }

  /** No pass commands the coolant. */
  lemma PassLeavesCoolant(s: Settings, load: bool, cur: ToolData, next: Option<ToolData>,
                          start: Point, sensor: seq<bool>)
    requires next.Some? || (!load && cur.toolId == 0)
    ensures CoolantOff !in PassSpec(s, load, cur, next, start, sensor).effects
  {
    var o := PassSpec(s, load, cur, next, start, sensor);
    if Proceeds(s, load, cur, next) {
      var pocket := PassPocket(s, load, cur, next.value);
      ApproachCounts(s, load, start, pocket);
      RecognizeCounts(s, pocket, sensor);
    }
  }

  /** With recognition on, the sensor is read exactly twice; the retry (back to
      engagement, then zone 1, then a synchronise) happens exactly when the first
      reading is blocked; the second reading alone decides failure; a failure
      keeps the mounted tool, a success commits. */
  lemma RecognitionSamples(s: Settings, load: bool, cur: ToolData, next: Option<ToolData>,
                           start: Point, sensor: seq<bool>)
    requires Proceeds(s, load, cur, next) && s.toolRecognition
    ensures var o := PassSpec(s, load, cur, next, start, sensor);
      && Occurrences(o.effects, SensorRead(true)) + Occurrences(o.effects, SensorRead(false)) == 2
      && Occurrences(o.effects, SensorRead(true)) ==
           (if Sample(sensor, 0) then 1 else 0) + (if Sample(sensor, 1) then 1 else 0)
      && Occurrences(o.effects, Sync) == 1 + (if Sample(sensor, 0) then 1 else 0) + (if o.status == Ok then 1 else 0)
      && (o.status == GcodeInvalidTarget <==> Sample(sensor, 1))
      && o.current == (if o.status == Ok then Commit(load, next.value) else cur)
  {
    var o := PassSpec(s, load, cur, next, start, sensor);
    var pocket := PassPocket(s, load, cur, next.value);
    var approach, check := Approach(s, load, start, pocket), Recognize(s, pocket, sensor);
    var tail := if check.passed then [Sync] else [];
    assert o.effects == approach + check.effects + tail + [];
    ApproachCounts(s, load, start, pocket);
    RecognizeCounts(s, pocket, sensor);
    forall e | e == Sync || e.SensorRead?
      ensures Occurrences(o.effects, e) == Occurrences(approach, e) + Occurrences(check.effects, e)
        + (if check.passed && e == Sync then 1 else 0)
    {
      OccurrencesSplit(approach, check.effects, tail, [], e);
      OccurrencesNone([], e);
      if check.passed {
        OccurrencesSingle(Sync, e);
      }
    }
  }

  /** With the stub sensor (never blocked), recognition passes on the first
      reading: no retry, two readings, one probe synchronise and the final one. */
  lemma StubSensorPassesFirstSample(s: Settings, load: bool, cur: ToolData, next: Option<ToolData>,
                                    start: Point)
    requires Proceeds(s, load, cur, next) && s.toolRecognition
    ensures var o := PassSpec(s, load, cur, next, start, []);
      && o.status == Ok
      && Occurrences(o.effects, SensorRead(false)) == 2
      && Occurrences(o.effects, SensorRead(true)) == 0
      && Occurrences(o.effects, Sync) == 2
  {
    RecognitionSamples(s, load, cur, next, start, []);
  }

  /** With recognition off the sensor is never read, the spindle is stopped only
      before the first move and never after it was started, nothing retracts, and
      the pass commits and ends with its one synchronise. */
  lemma WithoutRecognition(s: Settings, load: bool, cur: ToolData, next: Option<ToolData>,
                           start: Point, sensor: seq<bool>)
    requires Proceeds(s, load, cur, next) && !s.toolRecognition
    ensures var o := PassSpec(s, load, cur, next, start, sensor);
      && o.status == Ok && o.current == Commit(load, next.value)
      && SensorRead(true) !in o.effects && SensorRead(false) !in o.effects
      && Occurrences(o.effects, StopSpindle) == 1 && Occurrences(o.effects, Sync) == 1
      && o.effects[|o.effects| - 1] == Sync
  {
    var o := PassSpec(s, load, cur, next, start, sensor);
    var approach := Approach(s, load, start, PassPocket(s, load, cur, next.value));
    ApproachCounts(s, load, start, PassPocket(s, load, cur, next.value));
    OccurrencesConcat(approach, [Sync], StopSpindle);
    OccurrencesConcat(approach, [Sync], Sync);
    OccurrencesSingle(Sync, StopSpindle);
    OccurrencesSingle(Sync, Sync);
  }

  /** After a pass that moved, the spindle is left turning exactly when
      recognition is off or recognition failed. */
  lemma SpindleLeftTurning(s: Settings, load: bool, cur: ToolData, next: Option<ToolData>,
                           m: Machine, sensor: seq<bool>)
    requires Proceeds(s, load, cur, next)
    ensures Run(m, PassSpec(s, load, cur, next, m.pos, sensor).effects).spindleOn
        <==> (!s.toolRecognition || Sample(sensor, 1))
  {
    PassExitIsRun(s, load, cur, next, m, sensor);
  }

  /** Every exit of a pass follows a synchronise: no queued move is still pending,
      so the position the next pass reads is where the last move ended. */
  lemma PassDrained(s: Settings, load: bool, cur: ToolData, next: Option<ToolData>,
                    start: Point, sensor: seq<bool>)
    requires next.Some? || (!load && cur.toolId == 0)
    ensures Drained(PassSpec(s, load, cur, next, start, sensor).effects)
  {
    var o := PassSpec(s, load, cur, next, start, sensor);
    if o.effects != [] && o.effects[|o.effects| - 1].Sync? {
      SyncDrains(o.effects);
    } else if Proceeds(s, load, cur, next) {
      // Recognition failed: the last effect is the second reading, just after a synchronise.
      var n := |o.effects|;
      var lastSync := if Sample(sensor, 0) then n - 2 else n - 3;
      assert o.effects[lastSync] == Sync;
      forall i | 0 <= i < n && o.effects[i].Move?
        ensures exists j | i < j < n :: o.effects[j].Sync?
      {
        assert i < lastSync;
      }
    }
  }

  /** Loading tool 0 (no tool) is not refused: its pocket distance wraps to
      2^32 - pocket_offset and the pass traverses there. */
  lemma LoadingToolZeroLeavesMagazine(s: Settings, cur: ToolData, next: Option<ToolData>,
                                      start: Point, sensor: seq<bool>)
    requires next.Some? && next.value.toolId == 0 && s.pocketOffset > 0
    ensures var o := PassSpec(s, true, cur, next, start, sensor);
      && PocketDistance(s, 0) == Wrap32 - s.pocketOffset
      && o.effects[2].target == ToolLocation(s, 0).(z := s.zSafeClearance as real)
  {
    MotionOrder(s, true, cur, next, start, sensor);
  }

  /** An unload pass that completes copies the selection into the mounted tool;
      every other unload keeps the mounted tool. So an interrupt right after a
      completed unload finds the two equal, and `reset` restores nothing. */
  lemma CompletedUnloadDefeatsRestore(s: Settings, cur: ToolData, next: Option<ToolData>,
                                      start: Point, sensor: seq<bool>)
    requires next.Some?
    ensures PassSpec(s, false, cur, next, start, sensor).current ==
      if Completes(s, false, cur, next, sensor) then next.value else cur
  {
  }

  /** A change without a selection is refused, and a change to the mounted tool
      succeeds; neither emits anything or touches the mounted tool. */
  lemma TrivialRequests(s: Settings, cur: ToolData, next: Option<ToolData>, m: Machine,
                        unloadSensor: seq<bool>, loadSensor: seq<bool>)
    requires next.None? || cur.toolId == next.value.toolId
    ensures var o := ChangeSpec(s, cur, next, m, unloadSensor, loadSensor);
      && o.effects == [] && o.current == cur
      && o.status == (if next.None? then GCodeToolError else Ok)
  {
  }

  /** A real change turns the coolant off before anything else and never again,
      then runs the unload pass, then the load pass from where the unload left the
      machine, and measures last. */
  lemma ChangeOrder(s: Settings, cur: ToolData, next: Option<ToolData>, m: Machine,
                    unloadSensor: seq<bool>, loadSensor: seq<bool>)
    requires next.Some? && cur.toolId != next.value.toolId
    ensures var o := ChangeSpec(s, cur, next, m, unloadSensor, loadSensor);
      var unload := PassSpec(s, false, cur, next, m.pos, unloadSensor);
      && o.effects[0] == CoolantOff
      && CoolantOff !in o.effects[1..]
      && o.effects[1..|unload.effects| + 1] == unload.effects
      && o.effects[|unload.effects| + 1..|o.effects| - 1]
         == PassSpec(s, true, unload.current, next, PassExit(s, false, cur, next, m, unloadSensor).pos, loadSensor).effects
      && o.effects[|o.effects| - 1] == MeasureTool
  {
    var unload := PassSpec(s, false, cur, next, m.pos, unloadSensor);
    var start := PassExit(s, false, cur, next, m, unloadSensor).pos;
    var load := PassSpec(s, true, unload.current, next, start, loadSensor);
    PassLeavesCoolant(s, false, cur, next, m.pos, unloadSensor);
    PassLeavesCoolant(s, true, unload.current, next, start, loadSensor);
    Bracketed(unload.effects, load.effects);
  }

  /** The shape of a change's trace: coolant off, two passes without coolant, measure. */
  lemma Bracketed(u: seq<Effect>, l: seq<Effect>)
    requires CoolantOff !in u && CoolantOff !in l
    ensures var es := [CoolantOff] + u + l + [MeasureTool];
      && es[0] == CoolantOff && CoolantOff !in es[1..]
      && es[1..|u| + 1] == u && es[|u| + 1..|es| - 1] == l && es[|es| - 1] == MeasureTool
  {
    var es := [CoolantOff] + u + l + [MeasureTool];
    assert es[1..] == u + l + [MeasureTool];
  }

  /** A load that fails recognition is not reported: the change still returns
      success, with the spindle turning over the pocket. */
  lemma FailedLoadReportsOk(s: Settings, cur: ToolData, next: Option<ToolData>, m: Machine,
                            unloadSensor: seq<bool>, loadSensor: seq<bool>)
    requires next.Some? && cur.toolId != next.value.toolId
    requires next.value.toolId <= s.numberOfPockets
    requires s.toolRecognition && Sample(loadSensor, 1)
    ensures var o := ChangeSpec(s, cur, next, m, unloadSensor, loadSensor);
      && o.status == Ok
      && o.current == PassSpec(s, false, cur, next, m.pos, unloadSensor).current
      && Run(m, o.effects).spindleOn
  {
    ChangeExitIsRun(s, cur, next, m, unloadSensor, loadSensor);
  }

  /** As the commit is written, a change whose load pass completes leaves tool 0
      as the mounted tool, not the selected one. */
  lemma CompletedChangeClearsCurrentTool(s: Settings, cur: ToolData, next: Option<ToolData>, m: Machine,
                                         unloadSensor: seq<bool>, loadSensor: seq<bool>)
    requires next.Some? && cur.toolId != next.value.toolId
    requires next.value.toolId <= s.numberOfPockets
    requires !s.toolRecognition || !Sample(loadSensor, 1)
    ensures ChangeSpec(s, cur, next, m, unloadSensor, loadSensor).current == NoTool
  {
  }

  /** A selection beyond the magazine never moves the machine: coolant off, the
      manual unload hook if a tool is mounted, the manual load hook, measure. */
  lemma OutOfRangeSelectionIsManual(s: Settings, cur: ToolData, next: Option<ToolData>, m: Machine,
                                    unloadSensor: seq<bool>, loadSensor: seq<bool>)
    requires next.Some? && cur.toolId != next.value.toolId
    requires next.value.toolId > s.numberOfPockets
    ensures var o := ChangeSpec(s, cur, next, m, unloadSensor, loadSensor);
      && o.effects == [CoolantOff] + (if cur.toolId != 0 then [ManualUnload] else []) + [ManualLoad, MeasureTool]
      && o.current == cur
      && forall e | e in o.effects :: !e.Move?
  {
  }
}
