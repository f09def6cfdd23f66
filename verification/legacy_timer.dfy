/**
 * The older timer revision, Monitoring.Revit/Timer.cs. Unlike the operation
 * timer it has no operation name, it adopts the caller's dictionary by
 * reference (possibly null), it writes "Opening Time" straight into that
 * dictionary on Stop, and Stop neither clears the context nor resets the
 * stopwatch.
 */
module LegacyTimer {
  import opened Telemetry
  import opened OperationTimers

  const OpeningTimeKey := "Opening Time"

  const LegacyTemplate := "Revit Timer {Data}"

  /** A Dictionary<string, object> object, shared by whoever holds a reference to it. */
  class Dictionary {
    var entries: Context

    constructor ()
      ensures entries == []
    {
      entries := [];
    }

    method Add(key: string, value: Value) returns (fault: Option<Fault>)
      modifies this
      ensures match Telemetry.Add(old(entries), key, value)
        case Ok(c) => entries == c && fault.None?
        case Err(e) => entries == old(entries) && fault == Some(e)
    {
      match Telemetry.Add(entries, key, value)
      case Ok(c) =>
        entries := c;
        fault := None;
      case Err(e) =>
        fault := Some(e);
    }
  }

  class Timer {
    var args: Dictionary?
    var stopwatch: Stopwatch
    /** Records this timer handed to the logging sink. */
    ghost var log: seq<Record>

    /** Keeps the caller's dictionary itself, not a copy, and may keep null. */
    constructor (args: Dictionary?)
      ensures this.args == args && stopwatch == Idle && log == []
    {
      this.args := args;
      stopwatch := Idle;
      log := [];
    }

    /** A null context is first replaced by a new empty dictionary. */
    method AddArgs(key: string, value: Value) returns (fault: Option<Fault>)
      modifies this, args
      ensures old(args) == null ==> fresh(args) && args.entries == [Entry(key, value)] && fault.None?
      ensures old(args) != null ==> args == old(args)
      ensures old(args) != null ==>
        match Telemetry.Add(old(args.entries), key, value)
        case Ok(c) => args.entries == c && fault.None?
        case Err(e) => args.entries == old(args.entries) && fault == Some(e)
      ensures stopwatch == old(stopwatch) && log == old(log)
    {
      if args == null {
        args := new Dictionary();
      }
      fault := args.Add(key, value);
    }

    method Start()
      modifies this
      ensures stopwatch == Stopwatch(true, 0)
      ensures args == old(args) && log == old(log)
    {
      stopwatch := Idle;
      stopwatch := stopwatch.(running := true);
    }

    /** Wall-clock time passing while the timer exists. */
    method Elapse(ms: nat)
      modifies this
      ensures stopwatch.running == old(stopwatch.running)
      ensures stopwatch.elapsedMs == if old(stopwatch.running) then old(stopwatch.elapsedMs) + ms else old(stopwatch.elapsedMs)
      ensures args == old(args) && log == old(log)
    {
      if stopwatch.running {
        stopwatch := stopwatch.(elapsedMs := stopwatch.elapsedMs + ms);
      }
    }

    /**
     * Halts the stopwatch and adds "Opening Time" in whole seconds directly
     * to the dictionary (so a null context throws, and a second Stop hits the
     * duplicate key), then logs one record. Nothing is reset or cleared.
     */
    method Stop() returns (fault: Option<Fault>)
      modifies this, args
      ensures stopwatch == Stopwatch(false, old(stopwatch.elapsedMs)) && args == old(args)
      ensures old(args) == null ==> fault == Some(NullReference) && log == old(log)
      ensures old(args) != null ==>
        match Telemetry.Add(old(args.entries), OpeningTimeKey, Number(old(stopwatch.elapsedMs) / 1000))
        case Ok(c) => args.entries == c && fault.None? && log == old(log) + [Record(LegacyTemplate, [Dict(c)])]
        case Err(e) => args.entries == old(args.entries) && fault == Some(e) && log == old(log)
    {
      stopwatch := stopwatch.(running := false);
      if args == null {
        return Some(NullReference);
      }
      fault := args.Add(OpeningTimeKey, Number(stopwatch.elapsedMs / 1000));
      if fault.Some? {
        return;
      }
      LogTime();
    }

    method LogTime()
      modifies this`log
      ensures log == old(log) + [Record(LegacyTemplate, [if args == null then Null else Dict(args.entries)])]
    {
      log := log + [Record(LegacyTemplate, [if args == null then Null else Dict(args.entries)])];
    }
  }

  /**
   * A caller hands its own dictionary to a new timer, starts it, lets `ms`
   * milliseconds pass and calls Stop twice. The first Stop logs once and
   * the caller's dictionary now ends with "Opening Time"; the second Stop
   * throws on that same key and logs nothing more.
   */
  method StopTwiceFails(d: Dictionary, ms: nat) returns (first: Option<Fault>, second: Option<Fault>)
    requires !HasKey(d.entries, OpeningTimeKey)
    modifies d
    ensures first.None? && second == Some(DuplicateKey(OpeningTimeKey))
    ensures d.entries == old(d.entries) + [Entry(OpeningTimeKey, Number(ms / 1000))]
  {
    var t := new Timer(d);
    t.Start();
    t.Elapse(ms);
    first := t.Stop();
    ghost var logged := t.log;
    assert |logged| == 1;
    AddTwiceFails(old(d.entries), OpeningTimeKey, Number(ms / 1000), Number(ms / 1000));
    second := t.Stop();
    assert t.log == logged;
  }
}
