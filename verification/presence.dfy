/**
 * The presence tracker of Monitoring.Revit/Logging/IdleTimer.cs. A poll
 * timer fires every ten seconds; each tick compares the OS "last input"
 * stamp with the previous one to measure how long the user has been idle,
 * and compares Revit's main-window title with the foreground window's title.
 * When the user is judged to have left (idle past the timeout, or Revit not
 * in front) while the previous tick saw them active, a "Document Work"
 * record is logged and the session bookkeeping restarts.
 *
 * The OS and the clock are inputs: every operation receives the current
 * time, and a tick also receives the last-input stamp, the two window titles
 * (null when no title can be read) and the active document's path (null
 * when any link of the chain from the UI application to the path is null).
 * Times are DateTime ticks (100 ns).
 *
 * The functions ending in `Step` are the specification; class IdleTimer is
 * the object the C# code mutates, proved against them.
 */
module Presence {
  import opened Telemetry

  const TicksPerSecond := 10_000_000

  /** The idle timeout, 60 seconds; idleness must strictly exceed it. */
  const LogTimeOut := 60 * TicksPerSecond

  const WorkTemplate := "Document Work {Data}"

  /** The 32-bit tick count GetLastInputInfo reports. */
  type UInt32 = x: int | 0 <= x < 0x1_0000_0000

  /** What one poll of the OS and the host observes. */
  datatype Sample = Sample(
    now: int,
    lastInput: UInt32,
    revitTitle: Option<string>,
    activeTitle: Option<string>,
    activeDocument: Option<string>)

  datatype PresenceState = PresenceState(
    idleTicks: int,
    previousLastInput: UInt32,
    idleStart: int,
    wasActive: bool,
    startTime: int,
    startingDocument: Option<string>,
    polling: bool,     // the poll timer is enabled
    disposed: bool)    // the poll timer has been disposed

  /** The record LogActivity writes for a session on `doc` from `start` to `now`. */
  function WorkRecord(doc: Option<string>, start: int, now: int): Record {
    Record(WorkTemplate, [Dict([
      Entry("Document", OptText(doc)),
      Entry("StartTime", Instant(start)),
      Entry("EndTime", Instant(now)),
      Entry("WorkTime", Duration(now - start))])])
  }

  /** The tracker right after construction at time `now`. */
  function Initial(now: int): (s: PresenceState)
    ensures !s.wasActive && !s.polling && !s.disposed
    ensures s.idleStart == now && s.idleTicks == 0 && s.startingDocument.None?
  {
    PresenceState(0, 0, now, false, 0, None, false, false)
  }

  /** Reset: a new session starts now on the active document (possibly null). */
  function ResetStep(s: PresenceState, now: int, doc: Option<string>): (r: PresenceState)
    ensures r.startTime == now && r.startingDocument == doc
    ensures r == s.(startTime := now, startingDocument := doc)
  {
    s.(startTime := now, startingDocument := doc)
  }

  /** LogActivity: close the current session with one record, then Reset. */
  function LogActivityStep(s: PresenceState, now: int, doc: Option<string>): (o: Outcome<PresenceState>)
    ensures o.emitted == [WorkRecord(s.startingDocument, s.startTime, now)] && o.fault.None?
    ensures o.state == ResetStep(s, now, doc)
  {
    Outcome(ResetStep(s, now, doc), [WorkRecord(s.startingDocument, s.startTime, now)], None)
  }

  /** The user is judged gone: close the session if it was active, and mark it inactive. */
  function LeaveStep(s: PresenceState, now: int, doc: Option<string>): (o: Outcome<PresenceState>)
    ensures !o.state.wasActive && o.fault.None?
    ensures |o.emitted| == if s.wasActive then 1 else 0
    ensures s.wasActive ==> o == LogActivityStep(s, now, doc).(state := ResetStep(s, now, doc).(wasActive := false))
    ensures !s.wasActive ==> o.state == s && o.emitted == []
  {
    if s.wasActive then
      var l := LogActivityStep(s, now, doc);
      l.(state := l.state.(wasActive := false))
    else Outcome(s, [], None)
  }

  /** Whether the idle measurement a tick leaves behind exceeds the timeout. */
  predicate TimedOut(s: PresenceState) {
    s.idleTicks > LogTimeOut
  }

  /**
   * TimerElapsed: one poll. The idle measurement is updated from the
   * last-input stamp; past the timeout the user has left; otherwise the
   * window titles decide (two null titles are equal).
   */
  function TickStep(s: PresenceState, p: Sample): (o: Outcome<PresenceState>)
    ensures o.fault.None?
    ensures o.state.previousLastInput == p.lastInput
    ensures p.lastInput == s.previousLastInput ==>
      o.state.idleTicks == p.now - s.idleStart && o.state.idleStart == s.idleStart
    ensures p.lastInput != s.previousLastInput ==>
      o.state.idleTicks == 0 && o.state.idleStart == p.now
    ensures TimedOut(o.state) || p.revitTitle != p.activeTitle ==>
      !o.state.wasActive && |o.emitted| == (if s.wasActive then 1 else 0)
    ensures !TimedOut(o.state) && p.revitTitle == p.activeTitle ==>
      o.state.wasActive && o.emitted == []
    ensures o.emitted != [] ==>
      o.emitted == [WorkRecord(s.startingDocument, s.startTime, p.now)] &&
      o.state.startTime == p.now && o.state.startingDocument == p.activeDocument
    ensures o.emitted == [] ==>
      o.state.startTime == s.startTime && o.state.startingDocument == s.startingDocument
    ensures o.state.polling == s.polling && o.state.disposed == s.disposed
  {
    var same := p.lastInput == s.previousLastInput;
    var measured := s.(
      idleTicks := if same then p.now - s.idleStart else 0,
      idleStart := if same then s.idleStart else p.now,
      previousLastInput := p.lastInput);
    if TimedOut(measured) || p.revitTitle != p.activeTitle then
      LeaveStep(measured, p.now, p.activeDocument)
    else
      Outcome(measured.(wasActive := true), [], None)
  }

  /**
   * StartIdleTimer: enable polling, restart the session clock and mark the
   * user active. The document is read only when none is known yet (null or
   * empty), and that read throws when there is no active document. Enabling
   * a disposed poll timer throws before anything changes.
   */
  function StartStep(s: PresenceState, now: int, doc: Option<string>): (o: Outcome<PresenceState>)
    ensures o.emitted == []
    ensures s.disposed ==> o.state == s && o.fault == Some(ObjectDisposed)
    ensures !s.disposed ==> o.state.polling && o.state.startTime == now
    ensures !s.disposed && s.startingDocument != None && s.startingDocument != Some("") ==>
      o.fault.None? && o.state.wasActive && o.state.startingDocument == s.startingDocument
    ensures !s.disposed && (s.startingDocument == None || s.startingDocument == Some("")) && doc.Some? ==>
      o.fault.None? && o.state.wasActive && o.state.startingDocument == doc
    ensures !s.disposed && (s.startingDocument == None || s.startingDocument == Some("")) && doc.None? ==>
      o.fault == Some(NullReference) && o.state.wasActive == s.wasActive
    ensures o.state.idleTicks == s.idleTicks && o.state.idleStart == s.idleStart
    ensures o.state.previousLastInput == s.previousLastInput
  {
    if s.disposed then Outcome(s, [], Some(ObjectDisposed))
    else
      var enabled := s.(polling := true, startTime := now);
      if enabled.startingDocument == None || enabled.startingDocument == Some("") then
        match doc
        case None => Outcome(enabled, [], Some(NullReference))
        case Some(_) => Outcome(enabled.(startingDocument := doc, wasActive := true), [], None)
      else Outcome(enabled.(wasActive := true), [], None)
  }

  /** StopIdleTimer: disable polling and always close the session. */
  function StopStep(s: PresenceState, now: int, doc: Option<string>): (o: Outcome<PresenceState>)
    ensures o.emitted == [WorkRecord(s.startingDocument, s.startTime, now)] && o.fault.None?
    ensures !o.state.polling && o.state.wasActive == s.wasActive
    ensures o.state.startTime == now && o.state.startingDocument == doc
  {
    LogActivityStep(s.(polling := false), now, doc)
  }

  /** ChangeDocument: always close the session; the next one starts now on `doc`. */
  function ChangeDocumentStep(s: PresenceState, now: int, doc: Option<string>): (o: Outcome<PresenceState>)
    ensures o.emitted == [WorkRecord(s.startingDocument, s.startTime, now)] && o.fault.None?
    ensures o.state == s.(startTime := now, startingDocument := doc)
  {
    LogActivityStep(s, now, doc)
  }

  /**
   * Dispose: close the session only if it was active, then stop and
   * dispose the poll timer. `wasActive` itself is left as it was.
   */
  function DisposeStep(s: PresenceState, now: int, doc: Option<string>): (o: Outcome<PresenceState>)
    ensures |o.emitted| == (if s.wasActive then 1 else 0) && o.fault.None?
    ensures s.wasActive ==> o.emitted == [WorkRecord(s.startingDocument, s.startTime, now)]
    ensures o.state.disposed && !o.state.polling && o.state.wasActive == s.wasActive
  {
    var closed := if s.wasActive then LogActivityStep(s, now, doc) else Outcome(s, [], None);
    closed.(state := closed.state.(polling := false, disposed := true))
  }

  // ---------------------------------------------------------------------
  // Runs of ticks
  // ---------------------------------------------------------------------

  /** The ticks `ps` in order: the final state and everything logged. */
  function Run(s: PresenceState, ps: seq<Sample>): Outcome<PresenceState>
    decreases |ps|
  {
    if ps == [] then Outcome(s, [], None)
    else
      var first := TickStep(s, ps[0]);
      var rest := Run(first.state, ps[1..]);
      Outcome(rest.state, first.emitted + rest.emitted, None)
  }

  /** Every tick of the run leaves an idle measurement past the timeout. */
  predicate AllTimedOut(s: PresenceState, ps: seq<Sample>)
    decreases |ps|
  {
    ps == [] || (TimedOut(TickStep(s, ps[0]).state) && AllTimedOut(TickStep(s, ps[0]).state, ps[1..]))
  }

  /**
   * However long the user stays idle past the timeout, the run of ticks
   * logs one record if the session was active when it began and none
   * otherwise, and leaves the session inactive.
   */
  lemma {:induction false} IdleRunLogsAtMostOnce(s: PresenceState, ps: seq<Sample>)
    requires AllTimedOut(s, ps)
    ensures |Run(s, ps).emitted| == if ps != [] && s.wasActive then 1 else 0
    ensures ps != [] ==> !Run(s, ps).state.wasActive
    decreases |ps|
  {
    if ps != [] {
      var first := TickStep(s, ps[0]);
      IdleRunLogsAtMostOnce(first.state, ps[1..]);
    }
  }

  /**
   * After the user has left, a tick that finds Revit in front again marks the
   * session active without restarting it, so the next closure reports the
   * start time and document of the previous closure.
   */
  lemma RegainKeepsSessionStart(s: PresenceState, p1: Sample, p2: Sample)
    requires !s.wasActive
    requires !TimedOut(TickStep(s, p1).state) && p1.revitTitle == p1.activeTitle
    requires var s1 := TickStep(s, p1).state; TimedOut(TickStep(s1, p2).state) || p2.revitTitle != p2.activeTitle
    ensures TickStep(s, p1).emitted == []
    ensures TickStep(TickStep(s, p1).state, p2).emitted == [WorkRecord(s.startingDocument, s.startTime, p2.now)]
  {
  }

  /** Leaving Revit logs on the very tick that sees another window in front, not later. */
  lemma FocusLossLogsOnSameTick(s: PresenceState, p: Sample)
    requires s.wasActive && p.revitTitle != p.activeTitle
    ensures TickStep(s, p).emitted == [WorkRecord(s.startingDocument, s.startTime, p.now)]
  {
  }

  // ---------------------------------------------------------------------
  // The mutable tracker
  // ---------------------------------------------------------------------

  class IdleTimer {
    var idleTicks: int
    var previousLastInput: UInt32
    var idleStart: int
    var wasActive: bool
    var startTime: int
    var startingDocument: Option<string>
    var polling: bool
    var disposed: bool
    /** Records this tracker handed to the logging sink. */
    ghost var log: seq<Record>

    function State(): PresenceState
      reads this
    {
      PresenceState(idleTicks, previousLastInput, idleStart, wasActive, startTime, startingDocument, polling, disposed)
    }

    constructor (now: int)
      ensures State() == Initial(now) && log == []
    {
      idleTicks, previousLastInput, idleStart := 0, 0, now;
      wasActive, startTime, startingDocument := false, 0, None;
      polling, disposed := false, false;
      log := [];
    }

    method ChangeDocument(now: int, doc: Option<string>)
      modifies this
      ensures var o := ChangeDocumentStep(old(State()), now, doc);
        State() == o.state && log == old(log) + o.emitted
    {
      LogActivity(now, doc);
    }

    method Reset(now: int, doc: Option<string>)
      modifies this
      ensures State() == ResetStep(old(State()), now, doc) && log == old(log)
    {
      startTime := now;
      startingDocument := doc;
    }

    method StartIdleTimer(now: int, doc: Option<string>) returns (fault: Option<Fault>)
      modifies this
      ensures var o := StartStep(old(State()), now, doc);
        State() == o.state && log == old(log) && fault == o.fault
    {
      if disposed {
        return Some(ObjectDisposed);
      }
      polling := true;
      startTime := now;
      if startingDocument == None || startingDocument == Some("") {
        if doc.None? {
          return Some(NullReference);
        }
        startingDocument := doc;
      }
      wasActive := true;
      fault := None;
    }

    method StopIdleTimer(now: int, doc: Option<string>)
      modifies this
      ensures var o := StopStep(old(State()), now, doc);
        State() == o.state && log == old(log) + o.emitted
    {
      polling := false;
      LogActivity(now, doc);
    }

    method TimerElapsed(p: Sample)
      modifies this
      ensures var o := TickStep(old(State()), p);
        State() == o.state && log == old(log) + o.emitted
    {
      if p.lastInput == previousLastInput {
        idleTicks := p.now - idleStart;
      } else {
        idleTicks := 0;
        idleStart := p.now;
      }
      previousLastInput := p.lastInput;

      if idleTicks > LogTimeOut {
        if wasActive {
          LogActivity(p.now, p.activeDocument);
        }
        wasActive := false;
        return;
      }

      var revitWindowActive := p.revitTitle == p.activeTitle;
      if !revitWindowActive {
        if wasActive {
          LogActivity(p.now, p.activeDocument);
        }
        wasActive := false;
      } else {
        wasActive := true;
      }
    }

    method LogActivity(now: int, doc: Option<string>)
      modifies this
      ensures var o := LogActivityStep(old(State()), now, doc);
        State() == o.state && log == old(log) + o.emitted
    {
      log := log + [WorkRecord(startingDocument, startTime, now)];
      Reset(now, doc);
    }

    method Dispose(now: int, doc: Option<string>)
      modifies this
      ensures var o := DisposeStep(old(State()), now, doc);
        State() == o.state && log == old(log) + o.emitted
    {
      if wasActive {
        LogActivity(now, doc);
      }
      polling := false;
      disposed := true;
    }
  }
}
