/**
 * The operation timer of Monitoring.Revit/Logging/Timer.cs (and its
 * textually identical twin Monitoring.Revit/Logging/EventTimer.cs): a
 * stopwatch bound to an operation name and a key/value context, which turns a
 * Start/Stop pair into one structured log record.
 *
 * The value-level functions below (Created, ArgAdded, Started, Advanced,
 * Stopped) are the specification; class Timer is the mutable object the C#
 * code works with, and each of its methods is proved against them.
 */
module OperationTimers {
  import opened Telemetry

  /** System.Diagnostics.Stopwatch: whether it runs and the milliseconds it has measured. */
  datatype Stopwatch = Stopwatch(running: bool, elapsedMs: nat)

  /** A new or reset stopwatch. */
  const Idle := Stopwatch(false, 0)

  /** The context key Stop adds. */
  const ElapsedKey := "Time Elapsed (seconds)"

  const TimerTemplate := "{OperationName}, {Data}"

  datatype TimerState = TimerState(name: string, args: Context, watch: Stopwatch)

  /** The record LogTime writes: the operation name and a snapshot of the context. */
  function TimerRecord(name: string, args: Context): Record {
    Record(TimerTemplate, [Text(name), Dict(args)])
  }

  /** `new Timer(name)`: empty context, idle stopwatch at zero. */
  function Created(name: string): (t: TimerState)
    ensures t.name == name && t.args == [] && !t.watch.running && t.watch.elapsedMs == 0
  {
    TimerState(name, [], Idle)
  }

  /**
   * What `new Timer(name, args)` in Events.cs is read as: Created, with the
   * context starting as `args`. Neither Timer class in the source declares a
   * constructor taking a name and a dictionary, so this is a reading of the
   * call, not of a constructor body.
   */
  function CreatedWith(name: string, args: Context): (t: TimerState)
    ensures t.name == name && t.args == args && t.watch == Idle
  {
    TimerState(name, args, Idle)
  }

  /** AddArgs: one more context entry, or DuplicateKey when the key is already there. */
  function ArgAdded(t: TimerState, k: string, v: Value): (r: Result<TimerState, Fault>)
    ensures r.Ok? <==> !HasKey(t.args, k)
    ensures r.Err? ==> r.error == DuplicateKey(k)
    ensures r.Ok? ==> r.value.name == t.name && r.value.watch == t.watch
    ensures r.Ok? ==> r.value.args == t.args + [Entry(k, v)]
  {
    match Add(t.args, k, v)
    case Ok(c) => Ok(t.(args := c))
    case Err(e) => Err(e)
  }

  /** Start: Reset then Start, so the stopwatch runs from zero; name and context are untouched. */
  function Started(t: TimerState): (r: TimerState)
    ensures r.name == t.name && r.args == t.args
    ensures r.watch.running && r.watch.elapsedMs == 0
  {
    t.(watch := Stopwatch(true, 0))
  }

  /** `ms` milliseconds of wall-clock time pass: only a running stopwatch counts them. */
  function Advanced(t: TimerState, ms: nat): (r: TimerState)
    ensures r.name == t.name && r.args == t.args && r.watch.running == t.watch.running
    ensures r.watch.elapsedMs == if t.watch.running then t.watch.elapsedMs + ms else t.watch.elapsedMs
  {
    if t.watch.running then t.(watch := t.watch.(elapsedMs := t.watch.elapsedMs + ms)) else t
  }

  /**
   * Stop: halts the stopwatch, adds the elapsed whole seconds to the context,
   * logs one record, then resets the stopwatch and clears the context. There
   * is no running check. If the context already holds ElapsedKey, the Add
   * throws after the stopwatch was halted and nothing is logged.
   */
  function Stopped(t: TimerState): (o: Outcome<TimerState>)
    ensures o.state.name == t.name
    ensures o.fault.None? <==> !HasKey(t.args, ElapsedKey)
    ensures o.fault.None? ==>
      o.emitted == [TimerRecord(t.name, t.args + [Entry(ElapsedKey, Number(t.watch.elapsedMs / 1000))])]
    ensures o.fault.None? ==> o.state == Created(t.name)
    ensures o.fault.Some? ==>
      o.fault == Some(DuplicateKey(ElapsedKey)) && o.emitted == [] &&
      o.state == t.(watch := Stopwatch(false, t.watch.elapsedMs))
  {
    var halted := t.(watch := t.watch.(running := false));
    match ArgAdded(halted, ElapsedKey, Number(halted.watch.elapsedMs / 1000))
    case Err(e) => Outcome(halted, [], Some(e))
    case Ok(withTime) => Outcome(Created(t.name), [TimerRecord(t.name, withTime.args)], None)
  }

  /** AddArgs once per entry, in order, stopping at the first failure. */
  function ArgsAdded(t: TimerState, es: seq<Entry>): Result<TimerState, Fault>
    decreases |es|
  {
    if es == [] then Ok(t)
    else match ArgAdded(t, es[0].key, es[0].value)
      case Err(e) => Err(e)
      case Ok(t') => ArgsAdded(t', es[1..])
  }

  // ---------------------------------------------------------------------
  // Properties
  // ---------------------------------------------------------------------

  /** Keys absent from `c`, other than `e`'s, stay absent once `e` is appended. */
  lemma FreshKeysStayFresh(c: Context, es: seq<Entry>)
    requires es != [] && DistinctKeys(es)
    requires forall i :: 0 <= i < |es| ==> !HasKey(c, es[i].key)
    ensures forall i :: 0 <= i < |es| - 1 ==> !HasKey(c + [es[0]], es[1..][i].key)
  {
    forall i | 0 <= i < |es| - 1
      ensures !HasKey(c + [es[0]], es[1..][i].key)
    {
      assert es[1..][i] == es[i + 1];
      HasKeyAppend(c, es[0], es[i + 1].key);
    }
  }

  /** Adding entries whose keys are new and pairwise distinct never fails, and appends them in order. */
  lemma {:induction false} ArgsAddedAppends(t: TimerState, es: seq<Entry>)
    requires DistinctKeys(es)
    requires forall i :: 0 <= i < |es| ==> !HasKey(t.args, es[i].key)
    ensures ArgsAdded(t, es).Ok?
    ensures ArgsAdded(t, es).value == t.(args := t.args + es)
    decreases |es|
  {
    if es != [] {
      var t' := t.(args := t.args + [es[0]]);
      assert !HasKey(t.args, es[0].key);
      FreshKeysStayFresh(t.args, es);
      var rest := es[1..];
      assert DistinctKeys(rest) by {
        forall i, j | 0 <= i < j < |rest| ensures rest[i].key != rest[j].key {
          assert rest[i] == es[i + 1] && rest[j] == es[j + 1];
        }
      }
      ArgsAddedAppends(t', rest);
      assert ArgsAdded(t, es) == ArgsAdded(t', rest);
      assert t.args + [es[0]] + rest == t.args + es;
    }
  }

  /**
   * A measurement: a new timer is started, entries with fresh distinct keys
   * are added, `ms` milliseconds pass, and Stop is called. Exactly one
   * record is logged; its context holds every added entry in insertion
   * order followed by the elapsed whole seconds; the timer is back to new.
   */
  lemma MeasuredSession(name: string, es: seq<Entry>, ms: nat)
    requires DistinctKeys(es)
    requires !HasKey(es, ElapsedKey)
    ensures ArgsAdded(Started(Created(name)), es).Ok?
    ensures var o := Stopped(Advanced(ArgsAdded(Started(Created(name)), es).value, ms));
      o.fault.None? &&
      o.emitted == [TimerRecord(name, es + [Entry(ElapsedKey, Number(ms / 1000))])] &&
      o.state == Created(name)
  {
    var s := Started(Created(name));
    ArgsAddedAppends(s, es);
    var t := Advanced(ArgsAdded(s, es).value, ms);
    assert t == TimerState(name, es, Stopwatch(true, ms));
    assert !HasKey(t.args, ElapsedKey);
  }

  /** Stop on a timer that was never started still logs, with zero elapsed seconds. */
  lemma StopWithoutStart(name: string)
    ensures Stopped(Created(name)).emitted == [TimerRecord(name, [Entry(ElapsedKey, Number(0))])]
  {
    assert !HasKey([], ElapsedKey);
  }

  /**
   * Stop followed by Stop logs two records: the first as usual, the second
   * with a context holding only the elapsed entry, equal to zero.
   */
  lemma StopTwice(t: TimerState)
    requires !HasKey(t.args, ElapsedKey)
    ensures var o1 := Stopped(t); var o2 := Stopped(o1.state);
      o1.fault.None? && o2.fault.None? &&
      |o1.emitted + o2.emitted| == 2 &&
      o2.emitted == [TimerRecord(t.name, [Entry(ElapsedKey, Number(0))])]
  {
    StopWithoutStart(t.name);
  }

  /** A caller that added ElapsedKey itself makes Stop throw, and nothing is logged. */
  lemma StopAfterElapsedKeyFails(t: TimerState, v: Value)
    requires ArgAdded(t, ElapsedKey, v).Ok?
    ensures Stopped(ArgAdded(t, ElapsedKey, v).value).fault == Some(DuplicateKey(ElapsedKey))
    ensures Stopped(ArgAdded(t, ElapsedKey, v).value).emitted == []
  {
    AddTwiceFails(t.args, ElapsedKey, v, Number(0));
  }

  // ---------------------------------------------------------------------
  // The mutable timer
  // ---------------------------------------------------------------------

  class Timer {
    const operationName: string
    var args: Context
    var stopwatch: Stopwatch
    /** Records this timer handed to the logging sink. */
    ghost var log: seq<Record>

    function State(): TimerState
      reads this
    {
      TimerState(operationName, args, stopwatch)
    }

    constructor (operationName: string)
      ensures State() == Created(operationName) && log == []
    {
      this.operationName := operationName;
      args := [];
      stopwatch := Idle;
      log := [];
    }

    /**
     * AddArgs. The context is never null in this revision, so the null
     * check before Add never fires.
     */
    method AddArgs(key: string, value: Value) returns (fault: Option<Fault>)
      modifies this
      ensures match ArgAdded(old(State()), key, value)
        case Ok(t) => State() == t && fault.None?
        case Err(e) => State() == old(State()) && fault == Some(e)
      ensures log == old(log)
    {
      match Add(args, key, value)
      case Err(e) =>
        fault := Some(e);
      case Ok(c) =>
        args := c;
        fault := None;
    }

    method Start()
      modifies this
      ensures State() == Started(old(State())) && log == old(log)
    {
      stopwatch := Idle;
      stopwatch := stopwatch.(running := true);
    }

    /** Wall-clock time passing while the timer exists. */
    method Elapse(ms: nat)
      modifies this
      ensures State() == Advanced(old(State()), ms) && log == old(log)
    {
      if stopwatch.running {
        stopwatch := stopwatch.(elapsedMs := stopwatch.elapsedMs + ms);
      }
    }

    method Stop() returns (fault: Option<Fault>)
      modifies this
      ensures var o := Stopped(old(State()));
        State() == o.state && log == old(log) + o.emitted && fault == o.fault
    {
      stopwatch := stopwatch.(running := false);
      fault := AddArgs(ElapsedKey, Number(stopwatch.elapsedMs / 1000));
      if fault.Some? {
        return;
      }
      LogTime();
      stopwatch := Idle;
      args := [];
    }

    method LogTime()
      modifies this`log
      ensures log == old(log) + [TimerRecord(operationName, args)]
    {
      log := log + [TimerRecord(operationName, args)];
    }
  }
}
