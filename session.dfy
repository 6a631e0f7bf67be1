/** The driver slot: the one browser session `init_driver` creates or reuses
    and `close_driver` tears down. Everything the browser does is an oracle:
    `Launch` says how an attempt to construct a session turns out. */
module Session {
  import opened Wrappers
  import opened Text
  import LogChannel

  /** A live browser session. */
  datatype Handle = Handle(id: nat)

  /** What reading `chromedriver.log` yields: no such file, an error while
      reading it (swallowed), or its lines as `readlines()` returns them. */
  datatype DriverLog = NoLogFile | LogUnreadable | LogFile(lines: seq<string>)

  /** How one attempt to construct a session turns out. */
  datatype Launch =
      /** `ChromeDriverManager().install()` raises; it sits before the `try`,
          so nothing is logged. */
    | InstallFails(error: string)
      /** `webdriver.Chrome(...)` raises `error`. */
    | StartFails(error: string, driverLog: DriverLog)
      /** The session is built; opening the messaging client's home page
          then raises `homeError`, if present. */
    | Started(handle: Handle, homeError: Option<string>)

  /** How many trailing lines of the driver log a start failure reports. */
  const TailLength: nat := 200

  /** `lines[-200:]`: the last `min(200, |lines|)` lines, in file order. */
  function Tail(lines: seq<string>): (r: seq<string>)
    ensures |r| == if |lines| < TailLength then |lines| else TailLength
    ensures r == lines[|lines| - |r|..]
  {
    if |lines| <= TailLength then lines else lines[|lines| - TailLength..]
  }

  /** Every line `rstrip()`ped, in the same order. */
  function TrimEach(lines: seq<string>): (r: seq<string>)
    ensures |r| == |lines|
  {
    if lines == [] then [] else TrimEach(lines[..|lines| - 1]) + [TrimEnd(lines[|lines| - 1])]
  }

  /** Line `i` of the result is line `i` of the input, `rstrip()`ped. */
  lemma {:induction false} TrimEachAt(lines: seq<string>, i: nat)
    requires i < |lines|
    ensures TrimEach(lines)[i] == TrimEnd(lines[i])
  {
    if i < |lines| - 1 {
      TrimEachAt(lines[..|lines| - 1], i);
    }
  }

  /** The trimmed lines after one more line. */
  lemma TrimEachSnoc(lines: seq<string>, i: nat)
    requires i < |lines|
    ensures TrimEach(lines[..i + 1]) == TrimEach(lines[..i]) + [TrimEnd(lines[i])]
  {
    assert lines[..i + 1][..i] == lines[..i];
  }

  /** The diagnostic lines logged after a start failure: the tail of the
      driver log, each line `rstrip()`ped; none when the file is missing or
      cannot be read. */
  function Diagnostics(log: DriverLog): seq<string>
  {
    if log.LogFile? then TrimEach(Tail(log.lines)) else []
  }

  /** The messages `init_driver` logs when the slot holds `current`. */
  function InitLog(current: Option<Handle>, launch: Launch): seq<string>
  {
    if current.Some? then []
    else match launch
      case StartFails(e, dl) => ["init_driver error: " + e] + Diagnostics(dl)
      case _ => []
  }

  /** What `init_driver` returns, or the exception it raises. */
  function InitResult(current: Option<Handle>, launch: Launch): Result<Handle, string>
  {
    if current.Some? then Success(current.value)
    else match launch
      case InstallFails(e) => Failure(e)
      case StartFails(e, _) => Failure(e)
      case Started(h, err) => if err.Some? then Failure(err.value) else Success(h)
  }

  /** Whether `init_driver` builds a new session. */
  predicate Constructs(current: Option<Handle>, launch: Launch)
  {
    current.None? && launch.Started?
  }

  /** The slot after `init_driver`: a session, once built, is kept even if
      opening the home page then fails. */
  function SlotAfterInit(current: Option<Handle>, launch: Launch): Option<Handle>
  {
    if Constructs(current, launch) then Some(launch.handle) else current
  }

  /** The exception `close_driver` raises: only `quit()` on a live session
      can raise. */
  function CloseError(current: Option<Handle>, quitError: Option<string>): Option<string>
  {
    if current.Some? then quitError else None
  }

  /** The slot after `close_driver`: emptied, unless `quit()` raised first. */
  function SlotAfterClose(current: Option<Handle>, quitError: Option<string>): Option<Handle>
  {
    if current.Some? && quitError.Some? then current else None
  }

  /** A live session is handed back as it is: no construction, no message,
      whatever a construction attempt would have done. */
  lemma InitReuses(h: Handle, launch: Launch)
    ensures InitResult(Some(h), launch) == Success(h)
    ensures SlotAfterInit(Some(h), launch) == Some(h)
    ensures InitLog(Some(h), launch) == []
    ensures !Constructs(Some(h), launch)
  {
  }

  /** When `init_driver` succeeds it is silent, and the slot holds exactly
      the handle it returned. */
  lemma InitSuccess(current: Option<Handle>, launch: Launch)
    requires InitResult(current, launch).Success?
    ensures InitLog(current, launch) == []
    ensures SlotAfterInit(current, launch) == Some(InitResult(current, launch).value)
  {
  }

  /** A failed construction leaves the slot empty, logs `init_driver error:`
      followed by the last `min(200, n)` driver-log lines in file order, and
      re-raises the same error. */
  lemma StartFailure(e: string, lines: seq<string>)
    ensures SlotAfterInit(None, StartFails(e, LogFile(lines))) == None
    ensures InitResult(None, StartFails(e, LogFile(lines))) == Failure(e)
    ensures var log := InitLog(None, StartFails(e, LogFile(lines)));
      && |log| == 1 + (if |lines| < 200 then |lines| else 200)
      && log[0] == "init_driver error: " + e
      && forall i :: 1 <= i < |log| ==> log[i] == TrimEnd(lines[|lines| - (|log| - 1) + (i - 1)])
  {
    var tail := Tail(lines);
    var log := InitLog(None, StartFails(e, LogFile(lines)));
    assert log == ["init_driver error: " + e] + TrimEach(tail);
    forall i | 1 <= i < |log|
      ensures log[i] == TrimEnd(lines[|lines| - (|log| - 1) + (i - 1)])
    {
      TrimEachAt(tail, i - 1);
    }
  }

  /** Two `init_driver` calls in a row with no `close_driver` between: once
      the first has succeeded, the second returns the same session, builds
      nothing and logs nothing. */
  lemma InitTwice(current: Option<Handle>, first: Launch, second: Launch)
    requires InitResult(current, first).Success?
    ensures InitResult(SlotAfterInit(current, first), second) == InitResult(current, first)
    ensures SlotAfterInit(SlotAfterInit(current, first), second) == SlotAfterInit(current, first)
    ensures !Constructs(SlotAfterInit(current, first), second)
    ensures InitLog(SlotAfterInit(current, first), second) == []
  {
  }

  /** `close_driver` on an empty slot changes nothing and raises nothing; a
      close that did not raise leaves the slot empty, so closing again is a
      no-op. */
  lemma CloseIdempotent(current: Option<Handle>, first: Option<string>, second: Option<string>)
    ensures CloseError(None, second) == None && SlotAfterClose(None, second) == None
    ensures CloseError(current, first).None? ==> SlotAfterClose(current, first) == None
    ensures CloseError(current, first).None? ==>
      SlotAfterClose(SlotAfterClose(current, first), second) == SlotAfterClose(current, first)
  {
  }

  /** The diagnostic part of `init_driver`'s failure path: every line of the
      driver log's tail is logged, `rstrip()`ped, in file order; nothing when
      the file is missing or cannot be read. */
  method LogDiagnostics(log: LogChannel.MessageQueue, dl: DriverLog)
    requires log.Valid()
    modifies log
    ensures log.Valid()
    ensures log.messages == old(log.messages) + Diagnostics(dl)
    ensures |log.entries| == |old(log.entries)| + |Diagnostics(dl)|
  {
    if dl.LogFile? {
      LogTrimmed(log, Tail(dl.lines));
    }
  }

  /** The loop over the tail: logs every line, `rstrip()`ped, in order. */
  method LogTrimmed(log: LogChannel.MessageQueue, lines: seq<string>)
    requires log.Valid()
    modifies log
    ensures log.Valid()
    ensures log.messages == old(log.messages) + TrimEach(lines)
    ensures |log.entries| == |old(log.entries)| + |lines|
  {
    for i := 0 to |lines|
      invariant log.Valid()
      invariant log.messages == old(log.messages) + TrimEach(lines[..i])
      invariant |log.entries| == |old(log.entries)| + i
    {
      log.LogMessage(TrimEnd(lines[i]));
      TrimEachSnoc(lines, i);
      LogChannel.Regroup(old(log.messages), TrimEach(lines[..i]), [TrimEnd(lines[i])]);
    }
    assert lines[..|lines|] == lines;
  }

  /** The global `driver` slot guarded by `driver_lock` (calls are taken to
      be sequential). */
  class DriverSlot {
    /** `driver`: the live session, if any. */
    var driver: Option<Handle>
    /** How many sessions have been constructed through this slot. */
    ghost var sessions: nat

    constructor ()
      ensures driver == None && sessions == 0
    {
      driver := None;
      sessions := 0;
    }

    /** `init_driver()`: reuse the live session, or try to build one. */
    method InitDriver(log: LogChannel.MessageQueue, launch: Launch) returns (r: Result<Handle, string>)
      requires log.Valid()
      modifies this, log
      ensures log.Valid()
      ensures r == InitResult(old(driver), launch)
      ensures driver == SlotAfterInit(old(driver), launch)
      ensures sessions == old(sessions) + (if Constructs(old(driver), launch) then 1 else 0)
      ensures log.messages == old(log.messages) + InitLog(old(driver), launch)
      ensures |log.entries| == |old(log.entries)| + |InitLog(old(driver), launch)|
    {
      if driver.Some? {
        return Success(driver.value);
      }
      match launch
      case InstallFails(e) =>
        r := Failure(e);
      case StartFails(e, dl) =>
        log.LogMessage("init_driver error: " + e);
        LogDiagnostics(log, dl);
        LogChannel.Regroup(old(log.messages), ["init_driver error: " + e], Diagnostics(dl));
        r := Failure(e);
      case Started(h, err) =>
        driver := Some(h);
        sessions := sessions + 1;
        r := if err.Some? then Failure(err.value) else Success(h);
    }

    /** `close_driver()`: quit and forget the live session, if there is one.
        Returns the exception `quit()` raised, in which case `driver = None`
        is never reached. */
    method CloseDriver(quitError: Option<string>) returns (raised: Option<string>)
      modifies this
      ensures raised == CloseError(old(driver), quitError)
      ensures driver == SlotAfterClose(old(driver), quitError)
      ensures sessions == old(sessions)
    {
      raised := None;
      if driver.Some? {
        if quitError.Some? {
          return quitError;
        }
        driver := None;
      }
    }
  }
}
