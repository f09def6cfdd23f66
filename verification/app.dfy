/**
 * The add-in's entry point, Monitoring.Revit/App.cs: OnStartup sets the
 * logger, logs "Revit Started" and attaches one handler of Events to each of
 * fourteen host events; OnShutdown detaches thirteen of them, all but
 * DocChanged, and flushes the log.
 *
 * A host event is modelled by its invocation list, the sequence of handlers
 * a .NET multicast delegate calls in order. `+=` appends a handler; `-=`
 * removes the last occurrence of that handler and leaves the list unchanged
 * when it holds none. Handlers other add-ins attached are `Foreign`.
 */
module App {
  import opened Telemetry

  /** The host events App.cs subscribes to. */
  datatype HostEvent =
    | ViewActivated
    | ApplicationInitialized
    | DocumentOpening
    | DocumentOpened
    | DocumentChanged
    | DocumentSynchronizingWithCentral
    | DocumentSynchronizedWithCentral
    | DocumentSaving
    | DocumentSaved
    | DocumentPrinted
    | FileExported
    | FileImported
    | FamilyLoadedIntoDocument
    | ItemExecuted

  /**
   * `Monitor(e)` is the method of Events that App.cs attaches to `e`
   * (DocViewActivated for ViewActivated, Initialized for
   * ApplicationInitialized, DocOpening for DocumentOpening, and so on).
   */
  datatype Handler = Monitor(event: HostEvent) | Foreign(id: nat)

  /** Autodesk.Revit.UI.Result. */
  datatype Result = Succeeded | Failed | Cancelled

  /** The invocation list of each host event, one field per event. */
  datatype Subscriptions = Subscriptions(
    viewActivated: seq<Handler>,
    applicationInitialized: seq<Handler>,
    documentOpening: seq<Handler>,
    documentOpened: seq<Handler>,
    documentChanged: seq<Handler>,
    documentSynchronizingWithCentral: seq<Handler>,
    documentSynchronizedWithCentral: seq<Handler>,
    documentSaving: seq<Handler>,
    documentSaved: seq<Handler>,
    documentPrinted: seq<Handler>,
    fileExported: seq<Handler>,
    fileImported: seq<Handler>,
    familyLoadedIntoDocument: seq<Handler>,
    itemExecuted: seq<Handler>)

  const NoSubscriptions := Subscriptions([], [], [], [], [], [], [], [], [], [], [], [], [], [])

  /** The invocation list of `e`. */
  function Invocations(m: Subscriptions, e: HostEvent): seq<Handler> {
    match e
    case ViewActivated => m.viewActivated
    case ApplicationInitialized => m.applicationInitialized
    case DocumentOpening => m.documentOpening
    case DocumentOpened => m.documentOpened
    case DocumentChanged => m.documentChanged
    case DocumentSynchronizingWithCentral => m.documentSynchronizingWithCentral
    case DocumentSynchronizedWithCentral => m.documentSynchronizedWithCentral
    case DocumentSaving => m.documentSaving
    case DocumentSaved => m.documentSaved
    case DocumentPrinted => m.documentPrinted
    case FileExported => m.fileExported
    case FileImported => m.fileImported
    case FamilyLoadedIntoDocument => m.familyLoadedIntoDocument
    case ItemExecuted => m.itemExecuted
  }

  /** Two subscription states agree when every event has the same invocation list. */
  lemma SubscriptionsExtensional(m: Subscriptions, m': Subscriptions)
    requires forall e :: Invocations(m, e) == Invocations(m', e)
    ensures m == m'
  {
    assert Invocations(m, ViewActivated) == Invocations(m', ViewActivated);
    assert Invocations(m, ApplicationInitialized) == Invocations(m', ApplicationInitialized);
    assert Invocations(m, DocumentOpening) == Invocations(m', DocumentOpening);
    assert Invocations(m, DocumentOpened) == Invocations(m', DocumentOpened);
    assert Invocations(m, DocumentChanged) == Invocations(m', DocumentChanged);
    assert Invocations(m, DocumentSynchronizingWithCentral) == Invocations(m', DocumentSynchronizingWithCentral);
    assert Invocations(m, DocumentSynchronizedWithCentral) == Invocations(m', DocumentSynchronizedWithCentral);
    assert Invocations(m, DocumentSaving) == Invocations(m', DocumentSaving);
    assert Invocations(m, DocumentSaved) == Invocations(m', DocumentSaved);
    assert Invocations(m, DocumentPrinted) == Invocations(m', DocumentPrinted);
    assert Invocations(m, FileExported) == Invocations(m', FileExported);
    assert Invocations(m, FileImported) == Invocations(m', FileImported);
    assert Invocations(m, FamilyLoadedIntoDocument) == Invocations(m', FamilyLoadedIntoDocument);
    assert Invocations(m, ItemExecuted) == Invocations(m', ItemExecuted);
  }

  function Count(l: seq<Handler>, h: Handler): nat {
    multiset(l)[h]
  }

  /** `-=`: drop the last occurrence of `h`, if there is one. */
  function RemoveLast(l: seq<Handler>, h: Handler): seq<Handler> {
    if l == [] then []
    else if l[|l| - 1] == h then l[..|l| - 1]
    else RemoveLast(l[..|l| - 1], h) + [l[|l| - 1]]
  }

  /**
   * `-=` removes exactly one copy of an attached handler and keeps the order
   * of the others; it leaves a list without the handler as it is.
   */
  lemma {:induction false} RemoveLastRemovesOne(l: seq<Handler>, h: Handler)
    ensures h !in l ==> RemoveLast(l, h) == l
    ensures h in l ==> |RemoveLast(l, h)| == |l| - 1 && multiset(RemoveLast(l, h)) == multiset(l) - multiset{h}
  {
    if l != [] {
      var init, last := l[..|l| - 1], l[|l| - 1];
      assert l == init + [last];
      if last != h {
        RemoveLastRemovesOne(init, h);
      }
    }
  }

  /**
   * `-=` removes the LAST occurrence of the handler: the result is the list
   * with exactly that one position cut out, so the other handlers keep
   * their order.
   */
  lemma {:induction false} RemoveLastRemovesLastOccurrence(l: seq<Handler>, h: Handler)
    ensures h in l ==>
      exists i :: 0 <= i < |l| && l[i] == h && h !in l[i + 1..] && RemoveLast(l, h) == l[..i] + l[i + 1..]
  {
    if l != [] && h in l {
      var init, last := l[..|l| - 1], l[|l| - 1];
      assert l == init + [last];
      if last == h {
        var i := |l| - 1;
        assert l[i + 1..] == [];
      } else {
        assert h in init;
        RemoveLastRemovesLastOccurrence(init, h);
        var i :| 0 <= i < |init| && init[i] == h && h !in init[i + 1..] && RemoveLast(init, h) == init[..i] + init[i + 1..];
        assert l[i + 1..] == init[i + 1..] + [last];
        assert l[..i] == init[..i];
        assert RemoveLast(l, h) == l[..i] + l[i + 1..];
      }
    }
  }

  /** Whether OnShutdown detaches the Events handler of `e`: it has no line for DocumentChanged. */
  predicate Detached(e: HostEvent) {
    e != DocumentChanged
  }

  /** OnStartup's subscriptions: every event gains its Events handler at the end. */
  function Startup(m: Subscriptions): Subscriptions
  {
    Subscriptions(
      m.viewActivated + [Monitor(ViewActivated)],
      m.applicationInitialized + [Monitor(ApplicationInitialized)],
      m.documentOpening + [Monitor(DocumentOpening)],
      m.documentOpened + [Monitor(DocumentOpened)],
      m.documentChanged + [Monitor(DocumentChanged)],
      m.documentSynchronizingWithCentral + [Monitor(DocumentSynchronizingWithCentral)],
      m.documentSynchronizedWithCentral + [Monitor(DocumentSynchronizedWithCentral)],
      m.documentSaving + [Monitor(DocumentSaving)],
      m.documentSaved + [Monitor(DocumentSaved)],
      m.documentPrinted + [Monitor(DocumentPrinted)],
      m.fileExported + [Monitor(FileExported)],
      m.fileImported + [Monitor(FileImported)],
      m.familyLoadedIntoDocument + [Monitor(FamilyLoadedIntoDocument)],
      m.itemExecuted + [Monitor(ItemExecuted)])
  }

  /** `-=` of the Events handler of `e` on its own list. */
  function Detach(m: Subscriptions, e: HostEvent): seq<Handler> {
    RemoveLast(Invocations(m, e), Monitor(e))
  }

  /** OnShutdown as written: every event except DocumentChanged loses its Events handler. */
  function Shutdown(m: Subscriptions): Subscriptions
  {
    Subscriptions(
      RemoveLast(m.viewActivated, Monitor(ViewActivated)),
      RemoveLast(m.applicationInitialized, Monitor(ApplicationInitialized)),
      RemoveLast(m.documentOpening, Monitor(DocumentOpening)),
      RemoveLast(m.documentOpened, Monitor(DocumentOpened)),
      m.documentChanged,
      RemoveLast(m.documentSynchronizingWithCentral, Monitor(DocumentSynchronizingWithCentral)),
      RemoveLast(m.documentSynchronizedWithCentral, Monitor(DocumentSynchronizedWithCentral)),
      RemoveLast(m.documentSaving, Monitor(DocumentSaving)),
      RemoveLast(m.documentSaved, Monitor(DocumentSaved)),
      RemoveLast(m.documentPrinted, Monitor(DocumentPrinted)),
      RemoveLast(m.fileExported, Monitor(FileExported)),
      RemoveLast(m.fileImported, Monitor(FileImported)),
      RemoveLast(m.familyLoadedIntoDocument, Monitor(FamilyLoadedIntoDocument)),
      RemoveLast(m.itemExecuted, Monitor(ItemExecuted)))
  }

  /** OnShutdown as evidently intended: the same fourteen events OnStartup attached to. */
  function ShutdownSymmetric(m: Subscriptions): Subscriptions
  {
    Subscriptions(
      RemoveLast(m.viewActivated, Monitor(ViewActivated)),
      RemoveLast(m.applicationInitialized, Monitor(ApplicationInitialized)),
      RemoveLast(m.documentOpening, Monitor(DocumentOpening)),
      RemoveLast(m.documentOpened, Monitor(DocumentOpened)),
      RemoveLast(m.documentChanged, Monitor(DocumentChanged)),
      RemoveLast(m.documentSynchronizingWithCentral, Monitor(DocumentSynchronizingWithCentral)),
      RemoveLast(m.documentSynchronizedWithCentral, Monitor(DocumentSynchronizedWithCentral)),
      RemoveLast(m.documentSaving, Monitor(DocumentSaving)),
      RemoveLast(m.documentSaved, Monitor(DocumentSaved)),
      RemoveLast(m.documentPrinted, Monitor(DocumentPrinted)),
      RemoveLast(m.fileExported, Monitor(FileExported)),
      RemoveLast(m.fileImported, Monitor(FileImported)),
      RemoveLast(m.familyLoadedIntoDocument, Monitor(FamilyLoadedIntoDocument)),
      RemoveLast(m.itemExecuted, Monitor(ItemExecuted)))
  }

  // ---------------------------------------------------------------------
  // Properties
  // ---------------------------------------------------------------------

  /** OnStartup appends the Events handler of `e` to the end of the invocation list of `e`. */
  lemma StartupAppends(m: Subscriptions, e: HostEvent)
    ensures Invocations(Startup(m), e) == Invocations(m, e) + [Monitor(e)]
  {
  }

  /** OnShutdown detaches the Events handler of every event but DocumentChanged. */
  lemma ShutdownDetaches(m: Subscriptions, e: HostEvent)
    ensures Invocations(Shutdown(m), e) == if Detached(e) then Detach(m, e) else Invocations(m, e)
    ensures Invocations(ShutdownSymmetric(m), e) == Detach(m, e)
  {
  }

  /** `-=` undoes the `+=` just before it, whatever else the list holds. */
  lemma RemoveLastUndoesAppend(l: seq<Handler>, h: Handler)
    ensures RemoveLast(l + [h], h) == l
  {
    assert (l + [h])[..|l + [h]| - 1] == l;
  }

  /** `-=` of a handler that is not attached changes nothing. */
  lemma RemoveAbsentIsNoOp(l: seq<Handler>, h: Handler)
    requires Count(l, h) == 0
    ensures RemoveLast(l, h) == l
  {
    RemoveLastRemovesOne(l, h);
  }

  /** Each startup attaches exactly one more copy of each Events handler. */
  lemma StartupAddsOneEach(m: Subscriptions, e: HostEvent)
    ensures Count(Invocations(Startup(m), e), Monitor(e)) == Count(Invocations(m, e), Monitor(e)) + 1
    ensures |Invocations(Startup(m), e)| == |Invocations(m, e)| + 1
  {
    StartupAppends(m, e);
  }

  /**
   * A startup followed by a shutdown, as written, restores every invocation
   * list except DocumentChanged's, which keeps DocChanged attached.
   */
  lemma ShutdownAfterStartup(m: Subscriptions, e: HostEvent)
    ensures e != DocumentChanged ==> Invocations(Shutdown(Startup(m)), e) == Invocations(m, e)
    ensures e == DocumentChanged ==> Invocations(Shutdown(Startup(m)), e) == Invocations(m, e) + [Monitor(e)]
  {
    StartupAppends(m, e);
    ShutdownDetaches(Startup(m), e);
    RemoveLastUndoesAppend(Invocations(m, e), Monitor(e));
  }

  /** The same, for the whole state: one startup/shutdown cycle adds one DocChanged and changes nothing else. */
  lemma CycleLeaksDocChanged(m: Subscriptions)
    ensures Shutdown(Startup(m)) == m.(documentChanged := m.documentChanged + [Monitor(DocumentChanged)])
  {
    var m' := m.(documentChanged := m.documentChanged + [Monitor(DocumentChanged)]);
    forall e ensures Invocations(Shutdown(Startup(m)), e) == Invocations(m', e) {
      ShutdownAfterStartup(m, e);
    }
    SubscriptionsExtensional(Shutdown(Startup(m)), m');
  }

  /** The list of `e` after one startup and one shutdown, as written. */
  function Cycled(l: seq<Handler>, e: HostEvent): seq<Handler> {
    if Detached(e) then RemoveLast(l + [Monitor(e)], Monitor(e)) else l + [Monitor(e)]
  }

  /** The list of `e` after `n` startup/shutdown cycles, if the add-in is started and shut down `n` times in one process. */
  function CycledTimes(l: seq<Handler>, e: HostEvent, n: nat): seq<Handler>
    decreases n
  {
    if n == 0 then l else Cycled(CycledTimes(l, e, n - 1), e)
  }

  /** Cycled is one startup followed by one shutdown as written, read on the list of `e`. */
  lemma CycledIsShutdownStartup(m: Subscriptions, e: HostEvent)
    ensures Invocations(Shutdown(Startup(m)), e) == Cycled(Invocations(m, e), e)
  {
    ShutdownAfterStartup(m, e);
    RemoveLastUndoesAppend(Invocations(m, e), Monitor(e));
  }

  /**
   * After `n` cycles every list other than DocumentChanged's is back to
   * where it started, and DocumentChanged's has gained `n` copies of
   * DocChanged at its end. Were the add-in started again in the same
   * process, each document change would then be logged `n + 1` times.
   */
  lemma {:induction false} CyclesAccumulate(l: seq<Handler>, e: HostEvent, n: nat)
    ensures Detached(e) ==> CycledTimes(l, e, n) == l
    ensures !Detached(e) ==> CycledTimes(l, e, n) == l + seq(n, _ => Monitor(e))
    decreases n
  {
    if n > 0 {
      CyclesAccumulate(l, e, n - 1);
      RemoveLastUndoesAppend(CycledTimes(l, e, n - 1), Monitor(e));
      if !Detached(e) {
        assert l + seq(n - 1, _ => Monitor(e)) + [Monitor(e)] == l + seq(n, _ => Monitor(e));
      }
    }
  }

  /** The symmetric shutdown undoes a startup on every event, DocumentChanged included. */
  lemma SymmetricShutdownRestores(m: Subscriptions)
    ensures ShutdownSymmetric(Startup(m)) == m
  {
    forall e ensures Invocations(ShutdownSymmetric(Startup(m)), e) == Invocations(m, e) {
      StartupAppends(m, e);
      ShutdownDetaches(Startup(m), e);
      RemoveLastUndoesAppend(Invocations(m, e), Monitor(e));
    }
    SubscriptionsExtensional(ShutdownSymmetric(Startup(m)), m);
  }

  // ---------------------------------------------------------------------
  // The application object
  // ---------------------------------------------------------------------

  const StartedTemplate := "Revit Started"

  /** The host side App.cs touches: the event invocation lists and the static logger. */
  class Host {
    var subscriptions: Subscriptions
    /** Whether Log.Logger has been set. */
    var loggerSet: bool
    /** Whether Log.CloseAndFlush has been called. */
    var flushed: bool
    /** Records handed to the logging sink. */
    ghost var log: seq<Record>

    constructor (subscriptions: Subscriptions)
      ensures this.subscriptions == subscriptions && !loggerSet && !flushed && log == []
    {
      this.subscriptions := subscriptions;
      loggerSet := false;
      flushed := false;
      log := [];
    }

    method OnStartup() returns (r: Result)
      modifies this
      ensures r == Succeeded
      ensures loggerSet && flushed == old(flushed)
      ensures log == old(log) + [Record(StartedTemplate, [])]
      ensures subscriptions == Startup(old(subscriptions))
    {
      loggerSet := true;
      log := log + [Record(StartedTemplate, [])];
      subscriptions := subscriptions.(viewActivated := subscriptions.viewActivated + [Monitor(ViewActivated)]);
      subscriptions := subscriptions.(applicationInitialized := subscriptions.applicationInitialized + [Monitor(ApplicationInitialized)]);
      subscriptions := subscriptions.(documentOpening := subscriptions.documentOpening + [Monitor(DocumentOpening)]);
      subscriptions := subscriptions.(documentOpened := subscriptions.documentOpened + [Monitor(DocumentOpened)]);
      subscriptions := subscriptions.(documentChanged := subscriptions.documentChanged + [Monitor(DocumentChanged)]);
      subscriptions := subscriptions.(documentSynchronizingWithCentral := subscriptions.documentSynchronizingWithCentral + [Monitor(DocumentSynchronizingWithCentral)]);
      subscriptions := subscriptions.(documentSynchronizedWithCentral := subscriptions.documentSynchronizedWithCentral + [Monitor(DocumentSynchronizedWithCentral)]);
      subscriptions := subscriptions.(documentSaving := subscriptions.documentSaving + [Monitor(DocumentSaving)]);
      subscriptions := subscriptions.(documentSaved := subscriptions.documentSaved + [Monitor(DocumentSaved)]);
      subscriptions := subscriptions.(documentPrinted := subscriptions.documentPrinted + [Monitor(DocumentPrinted)]);
      subscriptions := subscriptions.(fileExported := subscriptions.fileExported + [Monitor(FileExported)]);
      subscriptions := subscriptions.(fileImported := subscriptions.fileImported + [Monitor(FileImported)]);
      subscriptions := subscriptions.(familyLoadedIntoDocument := subscriptions.familyLoadedIntoDocument + [Monitor(FamilyLoadedIntoDocument)]);
      subscriptions := subscriptions.(itemExecuted := subscriptions.itemExecuted + [Monitor(ItemExecuted)]);
      return Succeeded;
    }

    /**
     * OnShutdown as written: thirteen `-=`, none for DocumentChanged, then
     * the flush. ShutdownSymmetric is the detachment it evidently intends.
     */
    method OnShutdown() returns (r: Result)
      modifies this
      ensures r == Succeeded
      ensures loggerSet == old(loggerSet) && flushed && log == old(log)
      ensures subscriptions == Shutdown(old(subscriptions))
    {
      subscriptions := subscriptions.(viewActivated := RemoveLast(subscriptions.viewActivated, Monitor(ViewActivated)));
      subscriptions := subscriptions.(applicationInitialized := RemoveLast(subscriptions.applicationInitialized, Monitor(ApplicationInitialized)));
      subscriptions := subscriptions.(documentOpening := RemoveLast(subscriptions.documentOpening, Monitor(DocumentOpening)));
      subscriptions := subscriptions.(documentOpened := RemoveLast(subscriptions.documentOpened, Monitor(DocumentOpened)));
      subscriptions := subscriptions.(documentSynchronizingWithCentral := RemoveLast(subscriptions.documentSynchronizingWithCentral, Monitor(DocumentSynchronizingWithCentral)));
      subscriptions := subscriptions.(documentSynchronizedWithCentral := RemoveLast(subscriptions.documentSynchronizedWithCentral, Monitor(DocumentSynchronizedWithCentral)));
      subscriptions := subscriptions.(documentSaving := RemoveLast(subscriptions.documentSaving, Monitor(DocumentSaving)));
      subscriptions := subscriptions.(documentSaved := RemoveLast(subscriptions.documentSaved, Monitor(DocumentSaved)));
      subscriptions := subscriptions.(documentPrinted := RemoveLast(subscriptions.documentPrinted, Monitor(DocumentPrinted)));
      subscriptions := subscriptions.(fileExported := RemoveLast(subscriptions.fileExported, Monitor(FileExported)));
      subscriptions := subscriptions.(fileImported := RemoveLast(subscriptions.fileImported, Monitor(FileImported)));
      subscriptions := subscriptions.(familyLoadedIntoDocument := RemoveLast(subscriptions.familyLoadedIntoDocument, Monitor(FamilyLoadedIntoDocument)));
      subscriptions := subscriptions.(itemExecuted := RemoveLast(subscriptions.itemExecuted, Monitor(ItemExecuted)));
      flushed := true;
      return Succeeded;
    }
  }
}
