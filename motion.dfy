/** What the sequencer asks of the outside world, recorded as a trace of effects,
    and the machine state (position, planner queue, spindle) that such a trace
    leaves behind. */
module Motion {
  import opened Geometry

  /** One call into a collaborator: spindle HAL, planner (`mc_line`), queue
      synchronisation, coolant HAL, manual hooks, the recognition sensor,
      measurement, real-time report and the chained driver reset. */
  datatype Effect =
    | SpindleSet(on: bool, ccw: bool, rpm: real)
    | Move(target: Point, feed: real, rapid: bool)
    | Sync
    | CoolantOff
    | ManualLoad
    | ManualUnload
    | SensorRead(blocked: bool)
    | MeasureTool
    | ReportTool
    | DriverReset

  /** The machine as the sequencer drives it. `pos` is where the machine stands
      once the planner has run dry; `queue` holds the targets handed to the
      planner (`mc_line`) since, any of which may be executing at any moment;
      the spindle HAL acts at once, so `spindleOn` is its current state. */
  datatype Machine = Machine(pos: Point, queue: seq<Point>, spindleOn: bool)

  /** A move is queued, a synchronise waits for the queue to drain, a spindle
      command takes effect immediately; nothing else moves the machine. */
  function Apply(m: Machine, e: Effect): Machine
  {
    match e
    case Move(target, _, _) => m.(queue := m.queue + [target])
    case Sync => if m.queue == [] then m else Machine(m.queue[|m.queue| - 1], [], m.spindleOn)
    case SpindleSet(on, _, _) => m.(spindleOn := on)
    case _ => m
  }

  /** The machine after every effect of `es` has been carried out, in order. */
  function Run(m: Machine, es: seq<Effect>): Machine
    decreases |es|
  {
    if es == [] then m else Apply(Run(m, es[..|es| - 1]), es[|es| - 1])
  }

  /** The machine stands in column (x, y) and every queued target lies in it too. */
  predicate InColumn(m: Machine, x: real, y: real)
  {
    && m.pos.x == x && m.pos.y == y
    && forall i | 0 <= i < |m.queue| :: m.queue[i].x == x && m.queue[i].y == y
  }

  /** Nothing queued or executing leaves the machine's current XY column. */
  predicate Settled(m: Machine)
  {
    InColumn(m, m.pos.x, m.pos.y)
  }

  /** No sideways move is queued or executing while the spindle turns. */
  predicate Safe(m: Machine)
  {
    m.spindleOn ==> Settled(m)
  }

  /** The machine is safe before `es` and after each of its effects. */
  predicate SafeRun(m: Machine, es: seq<Effect>)
    decreases |es|
  {
    if es == [] then Safe(m) else SafeRun(m, es[..|es| - 1]) && Safe(Run(m, es))
  }

  /** Every queued move is followed by a synchronise: the queue is drained at the end. */
  predicate Drained(es: seq<Effect>)
  {
    forall i | 0 <= i < |es| && es[i].Move? :: exists j | i < j < |es| :: es[j].Sync?
  }

  /** Carrying out `a` then `b` is carrying out `a + b`. */
  lemma {:induction false} RunConcat(m: Machine, a: seq<Effect>, b: seq<Effect>)
    ensures Run(m, a + b) == Run(Run(m, a), b)
    decreases |b|
  {
    if b != [] {
      var b' := b[..|b| - 1];
      assert (a + b)[..|a + b| - 1] == a + b';
      RunConcat(m, a, b');
    } else {
      assert a + b == a;
    }
  }

  /** A safe run ends in a safe state. */
  lemma SafeRunEnds(m: Machine, es: seq<Effect>)
    requires SafeRun(m, es)
    ensures Safe(Run(m, es))
  {
  }

  /** A trace is safe exactly when both of its halves are, the second from where the first ends. */
  lemma {:induction false} SafeConcat(m: Machine, a: seq<Effect>, b: seq<Effect>)
    ensures SafeRun(m, a + b) <==> SafeRun(m, a) && SafeRun(Run(m, a), b)
    decreases |b|
  {
    if b != [] {
      var b' := b[..|b| - 1];
      assert (a + b)[..|a + b| - 1] == a + b';
      SafeConcat(m, a, b');
      RunConcat(m, a, b);
    } else {
      assert a + b == a;
      if SafeRun(m, a) {
        SafeRunEnds(m, a);
      }
    }
  }

  /** Every prefix of a safe trace is safe. */
  lemma SafePrefix(m: Machine, es: seq<Effect>, k: nat)
    requires k <= |es| && SafeRun(m, es)
    ensures SafeRun(m, es[..k])
  {
    assert es == es[..k] + es[k..];
    SafeConcat(m, es[..k], es[k..]);
  }

  /** An effect that targets column (x, y) keeps the machine in that column. */
  lemma ApplyInColumn(m: Machine, e: Effect, x: real, y: real)
    requires InColumn(m, x, y)
    requires e.Move? ==> e.target.x == x && e.target.y == y
    ensures InColumn(Apply(m, e), x, y)
  {
    if e.Move? {
      var q := m.queue + [e.target];
      assert forall i | 0 <= i < |q| :: q[i] == if i < |m.queue| then m.queue[i] else e.target;
    }
  }

  /** Moves that stay in the column the machine is settled in keep every state
      safe, and the machine stays in that column. */
  lemma {:induction false} ColumnMovesSafe(m: Machine, es: seq<Effect>, x: real, y: real)
    requires InColumn(m, x, y)
    requires forall i | 0 <= i < |es| && es[i].Move? :: es[i].target.x == x && es[i].target.y == y
    ensures SafeRun(m, es) && InColumn(Run(m, es), x, y)
    decreases |es|
  {
    if es != [] {
      ColumnMovesSafe(m, es[..|es| - 1], x, y);
      ApplyInColumn(Run(m, es[..|es| - 1]), es[|es| - 1], x, y);
    }
  }

  /** Appending one effect applies it to where the trace left the machine. */
  lemma RunSnoc(m: Machine, es: seq<Effect>, e: Effect)
    ensures Run(m, es + [e]) == Apply(Run(m, es), e)
  {
    assert (es + [e])[..|es + [e]| - 1] == es;
  }

  /** Carrying out three effects one after another. */
  lemma RunTriple(m: Machine, x: Effect, y: Effect, w: Effect)
    ensures Run(m, [x, y, w]) == Apply(Apply(Apply(m, x), y), w)
  {
    RunSnoc(m, [], x);
    assert [] + [x] == [x];
    RunSnoc(m, [x], y);
    assert [x] + [y] == [x, y];
    RunSnoc(m, [x, y], w);
    assert [x, y] + [w] == [x, y, w];
  }

  /** Carrying out two effects one after another. */
  lemma RunPair(m: Machine, x: Effect, y: Effect)
    ensures Run(m, [x, y]) == Apply(Apply(m, x), y)
  {
    RunSnoc(m, [], x);
    assert [] + [x] == [x];
    RunSnoc(m, [x], y);
    assert [x] + [y] == [x, y];
  }

  /** How often effect `e` occurs in `es`. */
  function Occurrences(es: seq<Effect>, e: Effect): nat
    decreases |es|
  {
    if es == [] then 0
    else Occurrences(es[..|es| - 1], e) + (if es[|es| - 1] == e then 1 else 0)
  }

  /** Occurrences add up over concatenation. */
  lemma {:induction false} OccurrencesConcat(a: seq<Effect>, b: seq<Effect>, e: Effect)
    ensures Occurrences(a + b, e) == Occurrences(a, e) + Occurrences(b, e)
    decreases |b|
  {
    if b == [] {
      assert a + b == a;
    } else {
      assert (a + b)[..|a + b| - 1] == a + b[..|b| - 1];
      OccurrencesConcat(a, b[..|b| - 1], e);
    }
  }

  /** An effect that is not in a trace occurs in it zero times. */
  lemma {:induction false} OccurrencesNone(es: seq<Effect>, e: Effect)
    requires e !in es
    ensures Occurrences(es, e) == 0
    decreases |es|
  {
    if es != [] {
      assert es == es[..|es| - 1] + [es[|es| - 1]];
      OccurrencesNone(es[..|es| - 1], e);
    }
  }

  /** A one-effect trace holds `e` once if it is `e`. */
  lemma OccurrencesSingle(x: Effect, e: Effect)
    ensures Occurrences([x], e) == if x == e then 1 else 0
  {
    assert [x][..0] == [];
  }

  /** Counting in a three-effect trace. */
  lemma OccurrencesTriple(x: Effect, y: Effect, w: Effect, e: Effect)
    ensures Occurrences([x, y, w], e) ==
      (if x == e then 1 else 0) + (if y == e then 1 else 0) + (if w == e then 1 else 0)
  {
    assert [x, y, w][..2] == [x, y];
    assert [x, y][..1] == [x];
    OccurrencesSingle(x, e);
  }

  /** Counting in a trace made of four consecutive parts. */
  lemma OccurrencesSplit(a: seq<Effect>, b: seq<Effect>, c: seq<Effect>, d: seq<Effect>, e: Effect)
    ensures Occurrences(a + b + c + d, e) ==
      Occurrences(a, e) + Occurrences(b, e) + Occurrences(c, e) + Occurrences(d, e)
  {
    OccurrencesConcat(a, b, e);
    OccurrencesConcat(a + b, c, e);
    OccurrencesConcat(a + b + c, d, e);
  }

  /** A trace ending in a synchronise is drained. */
  lemma SyncDrains(es: seq<Effect>)
    requires es != [] && es[|es| - 1].Sync?
    ensures Drained(es)
  {
    forall i | 0 <= i < |es| && es[i].Move?
      ensures exists j | i < j < |es| :: es[j].Sync?
    {
      assert i < |es| - 1;
    }
  }

  /** Regrouping the parts appended to a trace one after another. */
  lemma AppendAssoc2(t: seq<Effect>, a: seq<Effect>, b: seq<Effect>)
    ensures t + a + b == t + (a + b)
  {
  }

  lemma AppendAssoc3(t: seq<Effect>, a: seq<Effect>, b: seq<Effect>, c: seq<Effect>)
    ensures t + a + b + c == t + (a + b + c)
  {
  }

  lemma AppendAssoc(t: seq<Effect>, a: seq<Effect>, b: seq<Effect>, c: seq<Effect>, d: seq<Effect>)
    ensures t + a + b + c + d == t + (a + b + c + d)
  {
  }
}
