/**
 * The handlers of Monitoring.Revit/Logging/Events.cs that keep state: the
 * begin/end pairs (opening/opened, saving/saved, synchronizing/synchronized)
 * that hand an operation timer from one event to the other through the
 * application's dependency-injection container, and DocPrinted, which logs
 * once per printed view.
 *
 * The container is reduced to what the handlers use of it: a map from a
 * registration name to the registered timer, or None when the container
 * itself is null. Resolving a name that was never registered throws, as
 * Unity does for an interface type it cannot construct.
 * The registered timers are the operation timers of OperationTimers, created
 * with the name and initial context the handler passes.
 */
module EventCorrelator {
  import opened Telemetry
  import opened OperationTimers
  import opened Events

  type Registry = map<string, TimerState>

  const OpeningKey := "DocumentOpening"
  const SavingKey := "DocumentSaving"
  const SynchronizingKey := "DocumentSynchronizing"

  datatype OpeningArgs = OpeningArgs(isValidObject: bool, pathName: string, documentType: DocumentType)

  /** The payload of the opened, saving and saved events: the document's path. */
  datatype DocumentArgs = DocumentArgs(isValidObject: bool, documentPath: string)

  datatype SynchronizingArgs = SynchronizingArgs(isValidObject: bool, location: string, comments: string)

  datatype Element = View(name: string) | NotAView

  /** The printed view ids and what the document holds under each id (a missing id reads as null). */
  datatype PrintedArgs = PrintedArgs(
    isValidObject: bool, documentPath: string, printedViewIds: seq<ElementId>, elements: map<ElementId, Element>)

  /** `Resolve<ITimer>(key)`: the instance registered under `key`, or ResolutionFailed. */
  function Resolve(reg: Registry, key: string): (r: Result<TimerState, Fault>)
    ensures r.Ok? <==> key in reg
    ensures r.Ok? ==> r.value == reg[key]
    ensures r.Err? ==> r.error == ResolutionFailed
  {
    if key in reg then Ok(reg[key]) else Err(ResolutionFailed)
  }

  function OpeningContext(e: OpeningArgs): Context {
    [Entry("DocumentPath", Text(e.pathName)), Entry("DocumentType", Symbol(DocumentTypeName(e.documentType)))]
  }

  function SavingContext(e: DocumentArgs): Context {
    [Entry("DocumentPath", Text(e.documentPath))]
  }

  function SynchronizingContext(e: SynchronizingArgs): Context {
    [Entry("DocumentPath", Text(e.location)), Entry("Comments", Text(e.comments))]
  }

  function OpenedRecord(path: string): Record {
    Record("Revit Document {Document} Opened", [Text(path)])
  }

  function SavedRecord(path: string): Record {
    Record("Revit Document {Document} Saved", [Text(path)])
  }

  function SynchronizedRecord(path: string): Record {
    Record("Revit Document {Document} Synchronized", [Text(path)])
  }

  /** What the begin handlers register: a new timer, already started. */
  function StartedTimer(name: string, args: Context): (t: TimerState)
    ensures t.name == name && t.args == args && t.watch == Stopwatch(true, 0)
  {
    Started(CreatedWith(name, args))
  }

  /**
   * A begin handler: when the logger and the container are there and the
   * event is valid, register a started timer under `key`, replacing any
   * earlier registration. Nothing is logged.
   */
  function BeginStep(container: Option<Registry>, key: string, t: TimerState): (r: Option<Registry>)
    ensures container.None? ==> r.None?
    ensures container.Some? ==> r == Some(container.value[key := t])
  {
    match container
    case None => None
    case Some(reg) => Some(reg[key := t])
  }

  /** DocOpening: only a valid Project document starts the "Opening Document" timer. */
  function OpeningStep(logger: bool, container: Option<Registry>, e: OpeningArgs): (r: Option<Registry>)
    ensures !(logger && container.Some? && e.isValidObject && e.documentType == Project) ==> r == container
    ensures logger && container.Some? && e.isValidObject && e.documentType == Project ==>
      r.Some? && r.value.Keys == container.value.Keys + {OpeningKey} &&
      r.value[OpeningKey] == StartedTimer("Opening Document", OpeningContext(e)) &&
      forall k :: k in container.value && k != OpeningKey ==> r.value[k] == container.value[k]
  {
    if logger && container.Some? && e.isValidObject && e.documentType == Project
    then BeginStep(container, OpeningKey, StartedTimer("Opening Document", OpeningContext(e)))
    else container
  }

  /** DocSaving: every valid event starts the "Saving Document" timer. */
  function SavingStep(logger: bool, container: Option<Registry>, e: DocumentArgs): (r: Option<Registry>)
    ensures !(logger && container.Some? && e.isValidObject) ==> r == container
    ensures logger && container.Some? && e.isValidObject ==>
      r == Some(container.value[SavingKey := StartedTimer("Saving Document", SavingContext(e))])
  {
    if logger && container.Some? && e.isValidObject
    then BeginStep(container, SavingKey, StartedTimer("Saving Document", SavingContext(e)))
    else container
  }

  /** DocSynchronizing: every valid event starts the "Synchronizing Document" timer. */
  function SynchronizingStep(logger: bool, container: Option<Registry>, e: SynchronizingArgs): (r: Option<Registry>)
    ensures !(logger && container.Some? && e.isValidObject) ==> r == container
    ensures logger && container.Some? && e.isValidObject ==>
      r == Some(container.value[SynchronizingKey := StartedTimer("Synchronizing Document", SynchronizingContext(e))])
  {
    if logger && container.Some? && e.isValidObject
    then BeginStep(container, SynchronizingKey, StartedTimer("Synchronizing Document", SynchronizingContext(e)))
    else container
  }

  /**
   * An end handler's common part: stop the timer registered under `key`
   * (the registry keeps the stopped timer) and, if Stop did not throw, log
   * `done` after the timer's record.
   */
  function EndStep(reg: Registry, key: string, t: TimerState, done: Record): (o: Outcome<Option<Registry>>)
    ensures var s := Stopped(t);
      o.state == Some(reg[key := s.state]) && o.fault == s.fault &&
      o.emitted == if s.fault.None? then s.emitted + [done] else []
  {
    var s := Stopped(t);
    Outcome(Some(reg[key := s.state]), if s.fault.None? then s.emitted + [done] else [], s.fault)
  }

  /**
   * DocOpened: Resolve throws when no opening timer was ever registered, so
   * the null check after it never fires (a registration always holds a
   * timer). A registered timer that has stopped is left alone; a running
   * one gets the document path added to its context and is completed.
   */
  function OpenedStep(logger: bool, container: Option<Registry>, e: DocumentArgs): (o: Outcome<Option<Registry>>)
    ensures !(logger && container.Some? && e.isValidObject) ==> o == Outcome(container, [], None)
    ensures logger && container.Some? && e.isValidObject && OpeningKey !in container.value ==>
      o == Outcome(container, [], Some(ResolutionFailed))
    ensures logger && container.Some? && e.isValidObject && OpeningKey in container.value &&
            !container.value[OpeningKey].watch.running ==>
      o == Outcome(container, [], None)
    ensures logger && container.Some? && e.isValidObject && OpeningKey in container.value &&
            container.value[OpeningKey].watch.running ==>
      var t := container.value[OpeningKey];
      if HasKey(t.args, "Document") then o == Outcome(container, [], Some(DuplicateKey("Document")))
      else o == EndStep(container.value, OpeningKey, t.(args := t.args + [Entry("Document", Text(e.documentPath))]),
                        OpenedRecord(e.documentPath))
    ensures o.emitted != [] ==> |o.emitted| == 2 && o.emitted[1] == OpenedRecord(e.documentPath)
  {
    if !logger || container.None? || !e.isValidObject then Outcome(container, [], None)
    else match Resolve(container.value, OpeningKey)
      case Err(f) => Outcome(container, [], Some(f))
      case Ok(t) =>
        if !t.watch.running then Outcome(container, [], None)
        else match ArgAdded(t, "Document", Text(e.documentPath))
          case Err(f) => Outcome(container, [], Some(f))
          case Ok(t') => EndStep(container.value, OpeningKey, t', OpenedRecord(e.documentPath))
  }

  /**
   * DocSaved: the registered timer is stopped whether or not it runs; with
   * no timer registered Resolve throws.
   */
  function SavedStep(logger: bool, container: Option<Registry>, e: DocumentArgs): (o: Outcome<Option<Registry>>)
    ensures !(logger && container.Some? && e.isValidObject) ==> o == Outcome(container, [], None)
    ensures logger && container.Some? && e.isValidObject && SavingKey !in container.value ==>
      o == Outcome(container, [], Some(ResolutionFailed))
    ensures logger && container.Some? && e.isValidObject && SavingKey in container.value ==>
      o == EndStep(container.value, SavingKey, container.value[SavingKey], SavedRecord(e.documentPath))
  {
    if !logger || container.None? || !e.isValidObject then Outcome(container, [], None)
    else match Resolve(container.value, SavingKey)
      case Err(f) => Outcome(container, [], Some(f))
      case Ok(t) => EndStep(container.value, SavingKey, t, SavedRecord(e.documentPath))
  }

  /**
   * DocSynchronized: as DocSaved, but without the check that the container
   * exists, so a null container reaches Unity's Resolve extension, which
   * throws ArgumentNullException.
   */
  function SynchronizedStep(logger: bool, container: Option<Registry>, e: DocumentArgs): (o: Outcome<Option<Registry>>)
    ensures !(logger && e.isValidObject) ==> o == Outcome(container, [], None)
    ensures logger && e.isValidObject && container.None? ==> o == Outcome(container, [], Some(ArgumentNull))
    ensures logger && e.isValidObject && container.Some? && SynchronizingKey !in container.value ==>
      o == Outcome(container, [], Some(ResolutionFailed))
    ensures logger && e.isValidObject && container.Some? && SynchronizingKey in container.value ==>
      o == EndStep(container.value, SynchronizingKey, container.value[SynchronizingKey], SynchronizedRecord(e.documentPath))
  {
    if !logger || !e.isValidObject then Outcome(container, [], None)
    else if container.None? then Outcome(container, [], Some(ArgumentNull))
    else match Resolve(container.value, SynchronizingKey)
      case Err(f) => Outcome(container, [], Some(f))
      case Ok(t) => EndStep(container.value, SynchronizingKey, t, SynchronizedRecord(e.documentPath))
  }

  /** `ms` milliseconds pass for every registered timer. */
  function ElapseStep(container: Option<Registry>, ms: nat): (r: Option<Registry>)
    ensures r.Some? <==> container.Some?
    ensures r.Some? ==> r.value.Keys == container.value.Keys
    ensures r.Some? ==> forall k :: k in r.value ==> r.value[k] == Advanced(container.value[k], ms)
  {
    match container
    case None => None
    case Some(reg) => Some(map k | k in reg :: Advanced(reg[k], ms))
  }

  /** The view field of a printed item: the element's name when it is a view. */
  function PrintedView(e: PrintedArgs, id: ElementId): (v: Value)
    ensures id in e.elements && e.elements[id].View? ==> v == Text(e.elements[id].name)
    ensures !(id in e.elements && e.elements[id].View?) ==> v == Text("Could not be determined")
  {
    if id in e.elements && e.elements[id].View? then Text(e.elements[id].name) else Text("Could not be determined")
  }

  function PrintedRecord(e: PrintedArgs, id: ElementId): Record {
    DataRecord("Printed Document: {Data}", [Entry("view", PrintedView(e, id)), Entry("document", Text(e.documentPath))])
  }

  // ---------------------------------------------------------------------
  // Properties of the begin/end pairs
  // ---------------------------------------------------------------------

  /**
   * An opened event that finds a running timer whose context lacks both
   * "Document" and the elapsed key completes it: one timer record with the
   * document and the elapsed whole seconds appended, then the "Opened"
   * record, and the registered timer is left new.
   */
  lemma OpenedCompletes(reg: Registry, e: DocumentArgs)
    requires e.isValidObject && OpeningKey in reg && reg[OpeningKey].watch.running
    requires !HasKey(reg[OpeningKey].args, "Document") && !HasKey(reg[OpeningKey].args, ElapsedKey)
    ensures var t := reg[OpeningKey];
      var o := OpenedStep(true, Some(reg), e);
      o.fault.None? &&
      o.emitted == [
        TimerRecord(t.name,
          t.args + [Entry("Document", Text(e.documentPath)), Entry(ElapsedKey, Number(t.watch.elapsedMs / 1000))]),
        OpenedRecord(e.documentPath)] &&
      o.state == Some(reg[OpeningKey := Created(t.name)])
  {
    var t := reg[OpeningKey];
    var doc := Entry("Document", Text(e.documentPath));
    var t' := ArgAdded(t, "Document", Text(e.documentPath)).value;
    HasKeyAppend(t.args, doc, ElapsedKey);
    var elapsed := Entry(ElapsedKey, Number(t.watch.elapsedMs / 1000));
    assert t'.args + [elapsed] == t.args + [doc, elapsed];
  }

  /**
   * Opening a Project document, letting `ms` milliseconds pass and receiving
   * the opened event logs exactly the timer's record (the opening context,
   * the document, the elapsed whole seconds) and then the "Opened" record;
   * the registered timer is left new.
   */
  lemma OpeningThenOpened(reg: Registry, e1: OpeningArgs, ms: nat, e2: DocumentArgs)
    requires e1.isValidObject && e1.documentType == Project && e2.isValidObject
    ensures var c := ElapseStep(OpeningStep(true, Some(reg), e1), ms);
      var o := OpenedStep(true, c, e2);
      o.fault.None? &&
      o.emitted == [
        TimerRecord("Opening Document",
          OpeningContext(e1) + [Entry("Document", Text(e2.documentPath)), Entry(ElapsedKey, Number(ms / 1000))]),
        OpenedRecord(e2.documentPath)] &&
      o.state.Some? && o.state.value[OpeningKey] == Created("Opening Document")
  {
    var c := ElapseStep(OpeningStep(true, Some(reg), e1), ms);
    assert c.value[OpeningKey] == TimerState("Opening Document", OpeningContext(e1), Stopwatch(true, ms));
    assert KeysOf(OpeningContext(e1)) == ["DocumentPath", "DocumentType"];
    OpenedCompletes(c.value, e2);
  }

  /** A second opened event after a completed opening finds the timer stopped and logs nothing. */
  lemma OpenedTwiceLogsOnce(c: Option<Registry>, e: DocumentArgs, e': DocumentArgs)
    requires OpenedStep(true, c, e).emitted != []
    ensures OpenedStep(true, OpenedStep(true, c, e).state, e').emitted == []
  {
  }

  /**
   * Opening a document that is not a Project registers nothing, so its
   * opened event logs nothing unless an earlier opening timer is still
   * running (see StaleTimerCompletedByOtherDocument).
   */
  lemma NonProjectOpeningLogsNothing(c: Option<Registry>, e1: OpeningArgs, e2: DocumentArgs)
    requires e1.documentType != Project
    requires c.Some? && OpeningKey in c.value ==> !c.value[OpeningKey].watch.running
    ensures OpeningStep(true, c, e1) == c
    ensures OpenedStep(true, OpeningStep(true, c, e1), e2).emitted == []
  {
  }

  /**
   * A Project opening whose opened event arrives invalid leaves its timer
   * running. The opened event of a document opened later that is not a
   * Project (a family, say) then completes that stale timer: the record
   * carries the project's path and type beside the other document's path.
   */
  lemma StaleTimerCompletedByOtherDocument(
    reg: Registry, project: OpeningArgs, lost: DocumentArgs, other: OpeningArgs, arrived: DocumentArgs)
    requires project.isValidObject && project.documentType == Project && !lost.isValidObject
    requires other.documentType != Project && arrived.isValidObject
    ensures var c := OpenedStep(true, OpeningStep(true, Some(reg), project), lost).state;
      OpenedStep(true, OpeningStep(true, c, other), arrived).emitted == [
        TimerRecord("Opening Document",
          OpeningContext(project) + [Entry("Document", Text(arrived.documentPath)), Entry(ElapsedKey, Number(0))]),
        OpenedRecord(arrived.documentPath)]
  {
    var c := OpeningStep(true, Some(reg), project);
    assert KeysOf(OpeningContext(project)) == ["DocumentPath", "DocumentType"];
    OpenedCompletes(c.value, arrived);
  }

  /**
   * DocOpened as evidently intended: a running opening timer is completed
   * only by the opened event of the document whose opening started it, the
   * one its "DocumentPath" entry names.
   */
  function OpenedStepMatched(logger: bool, container: Option<Registry>, e: DocumentArgs): (o: Outcome<Option<Registry>>)
    ensures o.emitted != [] ==>
      container.Some? && OpeningKey in container.value &&
      Lookup(container.value[OpeningKey].args, "DocumentPath") == Some(Text(e.documentPath)) &&
      o == OpenedStep(logger, container, e)
  {
    if logger && container.Some? && e.isValidObject && OpeningKey in container.value &&
       Lookup(container.value[OpeningKey].args, "DocumentPath") != Some(Text(e.documentPath))
    then Outcome(container, [], None)
    else OpenedStep(logger, container, e)
  }

  /** The corrected handler still completes a Project's own opening exactly as the code does. */
  lemma MatchedCompletesOwnOpening(reg: Registry, e1: OpeningArgs, ms: nat, e2: DocumentArgs)
    requires e1.isValidObject && e1.documentType == Project && e2.isValidObject
    requires e2.documentPath == e1.pathName
    ensures var c := ElapseStep(OpeningStep(true, Some(reg), e1), ms);
      OpenedStepMatched(true, c, e2) == OpenedStep(true, c, e2) &&
      OpenedStep(true, c, e2).emitted != []
  {
    var c := ElapseStep(OpeningStep(true, Some(reg), e1), ms);
    assert c.value[OpeningKey].args == OpeningContext(e1);
    assert Lookup(OpeningContext(e1), "DocumentPath") == Some(Text(e1.pathName));
    OpeningThenOpened(reg, e1, ms, e2);
  }

  /** The corrected handler leaves a stale timer alone when another document's opened event arrives. */
  lemma MatchedIgnoresStaleTimer(
    reg: Registry, project: OpeningArgs, lost: DocumentArgs, other: OpeningArgs, arrived: DocumentArgs)
    requires project.isValidObject && project.documentType == Project && !lost.isValidObject
    requires other.documentType != Project && arrived.isValidObject
    requires arrived.documentPath != project.pathName
    ensures var c := OpeningStep(true, OpenedStep(true, OpeningStep(true, Some(reg), project), lost).state, other);
      OpenedStepMatched(true, c, arrived) == Outcome(c, [], None)
  {
    var c := OpeningStep(true, Some(reg), project);
    assert c.value[OpeningKey].args == OpeningContext(project);
    assert Lookup(OpeningContext(project), "DocumentPath") == Some(Text(project.pathName));
  }

  /**
   * DocSaved has no running check: a saved event with a registered timer
   * that is not running still logs its record, with zero elapsed seconds
   * after a previous save completed, followed by the "Saved" record.
   */
  lemma SavedTwiceLogsTwice(reg: Registry, e: DocumentArgs, e': DocumentArgs)
    requires e.isValidObject && e'.isValidObject
    requires SavingKey in reg && !HasKey(reg[SavingKey].args, ElapsedKey)
    ensures var o1 := SavedStep(true, Some(reg), e);
      var o2 := SavedStep(true, o1.state, e');
      o1.fault.None? && o2.fault.None? &&
      o2.emitted == [TimerRecord(reg[SavingKey].name, [Entry(ElapsedKey, Number(0))]), SavedRecord(e'.documentPath)]
  {
    StopWithoutStart(reg[SavingKey].name);
  }

  // ---------------------------------------------------------------------
  // The handlers with their shared state
  // ---------------------------------------------------------------------

  class Correlator {
    /** Whether the static logger is set. */
    const loggerSet: bool
    /** The application's container, reduced to the timers registered by name. */
    var container: Option<Registry>
    /** Records the handlers handed to the logging sink. */
    ghost var log: seq<Record>

    constructor (loggerSet: bool, container: Option<Registry>)
      ensures this.loggerSet == loggerSet && this.container == container && log == []
    {
      this.loggerSet := loggerSet;
      this.container := container;
      log := [];
    }

    method DocOpening(e: OpeningArgs)
      modifies this
      ensures container == OpeningStep(loggerSet, old(container), e) && log == old(log)
    {
      if !loggerSet || container.None? || !e.isValidObject || e.documentType != Project {
        return;
      }
      var timer := CreatedWith("Opening Document", OpeningContext(e));
      timer := Started(timer);
      container := Some(container.value[OpeningKey := timer]);
    }

    method DocOpened(e: DocumentArgs) returns (fault: Option<Fault>)
      modifies this
      ensures var o := OpenedStep(loggerSet, old(container), e);
        container == o.state && log == old(log) + o.emitted && fault == o.fault
    {
      if !loggerSet || container.None? || !e.isValidObject {
        return None;
      }
      var reg := container.value;
      if OpeningKey !in reg {
        return Some(ResolutionFailed);
      }
      var timer := reg[OpeningKey];
      if !timer.watch.running {
        return None;
      }
      match ArgAdded(timer, "Document", Text(e.documentPath))
      case Err(f) =>
        return Some(f);
      case Ok(t) =>
        timer := t;
      var stopped := Stopped(timer);
      container := Some(reg[OpeningKey := stopped.state]);
      fault := stopped.fault;
      if fault.None? {
        log := log + stopped.emitted;
        log := log + [OpenedRecord(e.documentPath)];
      }
    }

    method DocSaving(e: DocumentArgs)
      modifies this
      ensures container == SavingStep(loggerSet, old(container), e) && log == old(log)
    {
      if !loggerSet || container.None? || !e.isValidObject {
        return;
      }
      var timer := Started(CreatedWith("Saving Document", SavingContext(e)));
      container := Some(container.value[SavingKey := timer]);
    }

    method DocSaved(e: DocumentArgs) returns (fault: Option<Fault>)
      modifies this
      ensures var o := SavedStep(loggerSet, old(container), e);
        container == o.state && log == old(log) + o.emitted && fault == o.fault
    {
      if !loggerSet || container.None? || !e.isValidObject {
        return None;
      }
      var reg := container.value;
      if SavingKey !in reg {
        return Some(ResolutionFailed);
      }
      var stopped := Stopped(reg[SavingKey]);
      container := Some(reg[SavingKey := stopped.state]);
      fault := stopped.fault;
      if fault.None? {
        log := log + stopped.emitted + [SavedRecord(e.documentPath)];
      }
    }

    method DocSynchronizing(e: SynchronizingArgs)
      modifies this
      ensures container == SynchronizingStep(loggerSet, old(container), e) && log == old(log)
    {
      if !loggerSet || container.None? || !e.isValidObject {
        return;
      }
      var timer := Started(CreatedWith("Synchronizing Document", SynchronizingContext(e)));
      container := Some(container.value[SynchronizingKey := timer]);
    }

    method DocSynchronized(e: DocumentArgs) returns (fault: Option<Fault>)
      modifies this
      ensures var o := SynchronizedStep(loggerSet, old(container), e);
        container == o.state && log == old(log) + o.emitted && fault == o.fault
    {
      if !loggerSet || !e.isValidObject {
        return None;
      }
      if container.None? {
        return Some(ArgumentNull);
      }
      if SynchronizingKey !in container.value {
        return Some(ResolutionFailed);
      }
      var reg := container.value;
      var stopped := Stopped(reg[SynchronizingKey]);
      container := Some(reg[SynchronizingKey := stopped.state]);
      fault := stopped.fault;
      if fault.None? {
        log := log + stopped.emitted + [SynchronizedRecord(e.documentPath)];
      }
    }

    /** DocPrinted: one record per printed view id, in the order the ids are reported. */
    method DocPrinted(e: PrintedArgs)
      modifies this`log
      ensures !(loggerSet && e.isValidObject) ==> log == old(log)
      ensures loggerSet && e.isValidObject ==>
        |log| == |old(log)| + |e.printedViewIds| && log[..|old(log)|] == old(log) &&
        forall i :: 0 <= i < |e.printedViewIds| ==> log[|old(log)| + i] == PrintedRecord(e, e.printedViewIds[i])
    {
      if !loggerSet || !e.isValidObject {
        return;
      }
      var i := 0;
      while i < |e.printedViewIds|
        invariant 0 <= i <= |e.printedViewIds|
        invariant |log| == |old(log)| + i && log[..|old(log)|] == old(log)
        invariant forall j :: 0 <= j < i ==> log[|old(log)| + j] == PrintedRecord(e, e.printedViewIds[j])
      {
        log := log + [PrintedRecord(e, e.printedViewIds[i])];
        i := i + 1;
      }
    }

    /** Wall-clock time passing for every registered timer. */
    method Elapse(ms: nat)
      modifies this
      ensures container == ElapseStep(old(container), ms) && log == old(log)
    {
      if container.Some? {
        var reg := container.value;
        container := Some(map k | k in reg :: Advanced(reg[k], ms));
      }
    }
  }
}
