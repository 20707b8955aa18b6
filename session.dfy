/**
 * Session: the process-wide start/stop state of the addon (`sIsRunning`,
 * `sIsDebug`, the log file, the thread-safe function for the callback) and
 * the JavaScript entry points `startHook`, `stopHook` and `debugEnable`,
 * together with the choice of the log file's path.
 *
 * The pure transition functions (`StartHookSpec`, ...) state what each entry
 * point does to the state; the `Session` class carries the same state as
 * fields and its methods are proved to follow them.
 */
module Session {
  import opened Events
  import opened Reports

  /** An argument passed from JavaScript. */
  datatype JsValue = JsFunction | JsBoolean(b: bool) | JsOther

  /**
   * `value.As<Boolean>()` read as a C++ bool. For a non-boolean the N-API
   * read fails; the value then read is false.
   */
  function AsBoolean(v: JsValue): (b: bool)
    ensures v.JsBoolean? ==> b == v.b
    ensures !v.JsBoolean? ==> !b
  {
    v.JsBoolean? && v.b
  }

  // ---------------------------------------------------------------------
  // Log path

  /** `strstr(hay, needle) != NULL`: does `needle` occur in `hay`? */
  function Contains(hay: string, needle: string): (r: bool)
    ensures r ==> |needle| <= |hay|
    ensures needle == [] ==> r
    decreases |hay|
  {
    if |needle| > |hay| then false
    else if hay[..|needle|] == needle then true
    else Contains(hay[1..], needle)
  }

  /** An occurrence of `needle` starting at position `i` of `hay`. */
  predicate OccursAt(hay: string, needle: string, i: int)
  {
    0 <= i && i + |needle| <= |hay| && hay[i..i + |needle|] == needle
  }

  lemma {:induction false} ContainsIffOccurs(hay: string, needle: string)
    ensures Contains(hay, needle) <==> exists i :: OccursAt(hay, needle, i)
    decreases |hay|
  {
    if |needle| > |hay| {
    } else if hay[..|needle|] == needle {
      assert OccursAt(hay, needle, 0);
    } else {
      ContainsIffOccurs(hay[1..], needle);
      if Contains(hay[1..], needle) {
        var i :| OccursAt(hay[1..], needle, i);
        assert hay[1..][i..i + |needle|] == hay[i + 1..i + 1 + |needle|];
        assert OccursAt(hay, needle, i + 1);
      } else {
        forall i | OccursAt(hay, needle, i)
          ensures false
        {
          if i != 0 {
            assert hay[1..][i - 1..i - 1 + |needle|] == hay[i..i + |needle|];
            assert OccursAt(hay[1..], needle, i - 1);
          }
        }
      }
    }
  }

  const Needle: string := "electron"

  function Separator(windows: bool): char
  {
    if windows then '\\' else '/'
  }

  /**
   * The log file `StartHook` opens (in append mode): relative to a working
   * directory that mentions "electron" it is `build_app/iohook.log`,
   * otherwise `electron/build_app/iohook.log`; Windows builds use `\`.
   */
  function LogPath(cwd: string, windows: bool): (p: string)
    ensures |p| == 20 || |p| == 29
    ensures p[|p| - 20..] == "build_app" + [Separator(windows)] + "iohook.log"
  {
    var sep := [Separator(windows)];
    if Contains(cwd, Needle) then "build_app" + sep + "iohook.log"
    else "electron" + sep + "build_app" + sep + "iohook.log"
  }

  /** Neither fixed name contains a separator. */
  lemma NamesHaveNoSeparator(c: char)
    requires c == '/' || c == '\\'
    ensures forall k :: 0 <= k < |"build_app"| ==> "build_app"[k] != c
    ensures forall k :: 0 <= k < |"iohook.log"| ==> "iohook.log"[k] != c
    ensures forall k :: 0 <= k < |"electron"| ==> "electron"[k] != c
  {
  }

  /**
   * The path is exactly `build_app<sep>iohook.log` when "electron" occurs
   * somewhere in the working directory and exactly
   * `electron<sep>build_app<sep>iohook.log` otherwise; only the platform's
   * separator is used.
   */
  lemma LogPathChoice(cwd: string, windows: bool)
    ensures
      var sep := [Separator(windows)];
      LogPath(cwd, windows) ==
        if exists i :: OccursAt(cwd, Needle, i) then "build_app" + sep + "iohook.log"
        else "electron" + sep + "build_app" + sep + "iohook.log"
    ensures forall k :: 0 <= k < |LogPath(cwd, windows)| ==> LogPath(cwd, windows)[k] != Separator(!windows)
  {
    ContainsIffOccurs(cwd, Needle);
    NamesHaveNoSeparator(Separator(!windows));
  }

  // ---------------------------------------------------------------------
  // Session state and its transitions

  /**
   * The globals the entry points touch: `sIsRunning`, `sIsDebug`, `logFile`
   * (the path of the open file, None for `nullptr`), whether a thread-safe
   * function has been created for a callback, how many times `run()` has
   * spawned the hook and forwarder threads, whether the `std::thread`
   * objects `hook_thread` and `event_thread` still own a thread (are
   * joinable), whether the process has been ended by `std::terminate`, and
   * the status lines logged.
   */
  datatype State = State(
    running: bool, debug: bool, logFile: Option<string>,
    callbackSet: bool, launches: nat, threadsJoinable: bool, aborted: bool,
    reports: seq<Report>)

  const Initial: State := State(false, false, None, false, 0, false, false, [])

  function ReportsOf(r: Option<Report>): seq<Report>
  {
    if r.Some? then [r.value] else []
  }

  /**
   * `StartHook(args)`: when not running, open the log file if none is open
   * (`fopenOk` says whether `fopen` succeeded), take the debug flag from a
   * second argument, and, when the first argument is a function, register it
   * and `run()`. `run()` calls `hook_enable()`, which move-assigns freshly
   * spawned threads to `hook_thread` and `event_thread`: if those still own
   * threads from an earlier launch, the assignment calls `std::terminate`.
   * Otherwise `run()` classifies `hook_enable()`'s status. Nothing runs after
   * the process has terminated.
   */
  function StartHookSpec(s: State, args: seq<JsValue>, cwd: string, windows: bool, fopenOk: bool): (t: State)
    ensures s.aborted || s.running ==> t == s
    ensures t.launches <= s.launches + 1
    ensures t.reports == s.reports
    ensures t.aborted != s.aborted ==> t.running && !s.running && s.threadsJoinable
    ensures s.logFile.Some? ==> t.logFile == s.logFile
  {
    if s.aborted || s.running then s
    else
      var logFile := if s.logFile.None? && fopenOk then Some(LogPath(cwd, windows)) else s.logFile;
      var debug := if |args| == 2 then AsBoolean(args[1]) else s.debug;
      if |args| > 0 && args[0].JsFunction? then
        var t := s.(running := true, debug := debug, logFile := logFile, callbackSet := true);
        if s.threadsJoinable then t.(aborted := true)
        else t.(launches := s.launches + 1, threadsJoinable := true,
                reports := s.reports + ReportsOf(RunReport(HookEnableStatus)))
      else
        s.(debug := debug, logFile := logFile)
  }

  /**
   * `Stop()`: `stop()` logs `hook_stop()`'s status, then the session stops and
   * the log file closes. The thread objects are neither joined nor detached.
   */
  function StopSpec(s: State, stopStatus: Status): (t: State)
    ensures !t.running && t.logFile.None?
    ensures |t.reports| == |s.reports| + 1 && t.reports[..|s.reports|] == s.reports
    ensures t.reports[|s.reports|] == StopReport(stopStatus)
    ensures t.launches == s.launches && t.threadsJoinable == s.threadsJoinable
  {
    s.(running := false, logFile := None, reports := s.reports + [StopReport(stopStatus)])
  }

  /** `StopHook()`: `Stop()` only while running. */
  function StopHookSpec(s: State, stopStatus: Status): (t: State)
    ensures !t.running || t.aborted
    ensures t.launches == s.launches && t.threadsJoinable == s.threadsJoinable && t.aborted == s.aborted
    ensures t.running != s.running ==> t == StopSpec(s, stopStatus)
  {
    if s.aborted || !s.running then s else StopSpec(s, stopStatus)
  }

  /** `DebugEnable(args)`: the first argument, if any, becomes the debug flag. */
  function DebugEnableSpec(s: State, args: seq<JsValue>): (t: State)
    ensures t.(debug := s.debug) == s
    ensures !s.aborted && |args| > 0 ==> t.debug == AsBoolean(args[0])
  {
    if s.aborted || |args| == 0 then s else s.(debug := AsBoolean(args[0]))
  }

  /**
   * What holds of every state the entry points reach from `Initial`: the
   * thread objects own threads exactly after the first launch, a running
   * session has them, a terminated process was running, and the threads are
   * launched at most once in the life of the process.
   */
  predicate Consistent(s: State)
  {
    (s.threadsJoinable <==> s.launches > 0) &&
    (s.running ==> s.threadsJoinable) &&
    (s.aborted ==> s.running) &&
    s.launches <= 1
  }

  lemma InitialConsistent()
    ensures Consistent(Initial) && !Initial.running && !Initial.aborted && Initial.launches == 0
  {
  }

  lemma EntryPointsKeepConsistent(s: State, args: seq<JsValue>, cwd: string, windows: bool, fopenOk: bool, st: Status)
    requires Consistent(s)
    ensures Consistent(StartHookSpec(s, args, cwd, windows, fopenOk))
    ensures Consistent(StopHookSpec(s, st))
    ensures Consistent(DebugEnableSpec(s, args))
  {
  }

  /** A second `StartHook` while running changes nothing: at most one session. */
  lemma StartWhileRunning(s: State, args: seq<JsValue>, cwd: string, windows: bool, fopenOk: bool)
    requires s.running
    ensures StartHookSpec(s, args, cwd, windows, fopenOk) == s
  {
  }

  /**
   * From a stopped state, `StartHook` starts exactly when its first argument
   * is a function; it launches the threads when the thread objects are free
   * and terminates the process when they still own threads; it sets the debug
   * flag exactly when given two arguments; it opens the log file only when
   * none is open; and `run()` logs nothing, because `hook_enable()` always
   * succeeds.
   */
  lemma StartWhenStopped(s: State, args: seq<JsValue>, cwd: string, windows: bool, fopenOk: bool)
    requires !s.running && !s.aborted
    ensures
      var t := StartHookSpec(s, args, cwd, windows, fopenOk);
      var fn := |args| > 0 && args[0].JsFunction?;
      (t.running <==> fn) &&
      (t.aborted <==> fn && s.threadsJoinable) &&
      t.launches == (if fn && !s.threadsJoinable then s.launches + 1 else s.launches) &&
      t.threadsJoinable == (s.threadsJoinable || fn) &&
      (t.callbackSet <==> s.callbackSet || fn) &&
      t.debug == (if |args| == 2 then AsBoolean(args[1]) else s.debug) &&
      (s.logFile.Some? ==> t.logFile == s.logFile) &&
      (s.logFile.None? ==> t.logFile == if fopenOk then Some(LogPath(cwd, windows)) else None) &&
      t.reports == s.reports
  {
  }

  /** Two starts in a row launch the threads at most once. */
  lemma StartTwiceLaunchesOnce(s: State, a1: seq<JsValue>, a2: seq<JsValue>, cwd: string, windows: bool, ok1: bool, ok2: bool)
    ensures StartHookSpec(StartHookSpec(s, a1, cwd, windows, ok1), a2, cwd, windows, ok2).launches <= s.launches + 1
  {
  }

  /**
   * `Stop()` leaves the session stopped with no open log file, logs exactly
   * one ERROR line (success included), and keeps the rest, the thread
   * objects included.
   */
  lemma StopEffect(s: State, st: Status)
    ensures
      var t := StopSpec(s, st);
      !t.running && t.logFile.None? &&
      |t.reports| == |s.reports| + 1 && t.reports[..|s.reports|] == s.reports &&
      t.reports[|s.reports|].level == Error &&
      t.debug == s.debug && t.callbackSet == s.callbackSet && t.launches == s.launches &&
      t.threadsJoinable == s.threadsJoinable && t.aborted == s.aborted
  {
  }

  /** `StopHook` stops only a running session, and a second `StopHook` is a no-op. */
  lemma StopHookGuard(s: State, st1: Status, st2: Status)
    ensures !s.running || s.aborted ==> StopHookSpec(s, st1) == s
    ensures s.running && !s.aborted ==> StopHookSpec(s, st1) == StopSpec(s, st1)
    ensures StopHookSpec(StopHookSpec(s, st1), st2) == StopHookSpec(s, st1)
  {
  }

  /**
   * As written, a restart ends the process: after a `StopHook`, a
   * `StartHook` with a callback move-assigns onto thread objects that still
   * own the first launch's threads, so `std::terminate` runs; no second
   * launch happens and `run()` logs nothing.
   */
  lemma RestartAfterStopTerminates(s: State, st: Status, args: seq<JsValue>, cwd: string, windows: bool, fopenOk: bool)
    requires Consistent(s) && s.running && !s.aborted && |args| > 0 && args[0].JsFunction?
    ensures
      var t := StartHookSpec(StopHookSpec(s, st), args, cwd, windows, fopenOk);
      t.aborted && t.launches == s.launches &&
      t.reports == s.reports + [StopReport(st)]
  {
  }

  /** A concrete run: start, stop, start again terminates the process. */
  lemma StartStopStartFixture()
    ensures
      var args := [JsFunction];
      var s1 := StartHookSpec(Initial, args, "/home/app", false, true);
      var s2 := StopHookSpec(s1, Success);
      var s3 := StartHookSpec(s2, args, "/home/app", false, true);
      s1.running && !s1.aborted && s1.launches == 1 &&
      !s2.running && s2.threadsJoinable &&
      s3.aborted && s3.launches == 1
  {
  }

  /**
   * The evidently intended `Stop()`: after stopping, release both thread
   * objects so that they no longer own threads, by detaching them or by
   * waking the forwarder (which otherwise waits on an empty queue forever)
   * and then joining them.
   */
  function StopReleasedSpec(s: State, stopStatus: Status): (t: State)
    ensures !t.running && !t.threadsJoinable
    ensures t.(threadsJoinable := s.threadsJoinable) == StopSpec(s, stopStatus)
  {
    StopSpec(s, stopStatus).(threadsJoinable := false)
  }

  /** `StopHook()` with the corrected `Stop()`. */
  function StopHookReleasedSpec(s: State, stopStatus: Status): (t: State)
    ensures s.running && !s.aborted ==> !t.running && !t.threadsJoinable
    ensures t.(threadsJoinable := s.threadsJoinable) == StopHookSpec(s, stopStatus)
  {
    if s.aborted || !s.running then s else StopReleasedSpec(s, stopStatus)
  }

  /**
   * With the corrected `Stop()`, the thread objects own threads exactly while
   * the session runs, and the process is never terminated.
   */
  predicate ReleasedConsistent(s: State)
  {
    (s.threadsJoinable <==> s.running) && !s.aborted
  }

  lemma ReleasedEntryPointsKeepConsistent(s: State, args: seq<JsValue>, cwd: string, windows: bool, fopenOk: bool, st: Status)
    requires ReleasedConsistent(s)
    ensures ReleasedConsistent(StartHookSpec(s, args, cwd, windows, fopenOk))
    ensures ReleasedConsistent(StopHookReleasedSpec(s, st))
    ensures ReleasedConsistent(DebugEnableSpec(s, args))
  {
  }

  /** With the corrected `Stop()`, a start after a stop launches a fresh pair of threads. */
  lemma RestartAfterReleasedStop(s: State, st: Status, args: seq<JsValue>, cwd: string, windows: bool, fopenOk: bool)
    requires ReleasedConsistent(s) && s.running && |args| > 0 && args[0].JsFunction?
    ensures
      var t := StartHookSpec(StopHookReleasedSpec(s, st), args, cwd, windows, fopenOk);
      t.running && !t.aborted && t.launches == s.launches + 1 &&
      t.logFile == (if fopenOk then Some(LogPath(cwd, windows)) else None) &&
      t.reports == s.reports + [StopReport(st)]
  {
  }

  /**
   * The debug flag is written but never read: whatever its value before an
   * entry point, everything else the entry point produces is the same.
   */
  lemma DebugNeverRead(s: State, d: bool, args: seq<JsValue>, cwd: string, windows: bool, fopenOk: bool, st: Status)
    ensures StartHookSpec(s.(debug := d), args, cwd, windows, fopenOk).(debug := false)
         == StartHookSpec(s, args, cwd, windows, fopenOk).(debug := false)
    ensures StopHookSpec(s.(debug := d), st).(debug := false) == StopHookSpec(s, st).(debug := false)
    ensures DebugEnableSpec(s, args).(debug := s.debug) == s
  {
  }

  /**
   * The process-wide session, as the globals of the addon. Its methods are
   * the entry points of a live process: none is called once the process has
   * terminated.
   */
  class Session {
    var running: bool
    var debug: bool
    var logFile: Option<string>
    var callbackSet: bool
    var launches: nat
    var threadsJoinable: bool
    var aborted: bool
    var reports: seq<Report>

    function Snapshot(): State
      reads this
    {
      State(running, debug, logFile, callbackSet, launches, threadsJoinable, aborted, reports)
    }

    /** The globals at module load: not running, no debug, no log file, no threads. */
    constructor ()
      ensures Snapshot() == Initial
    {
      running, debug, logFile, callbackSet := false, false, None, false;
      launches, threadsJoinable, aborted, reports := 0, false, false, [];
    }

    /**
     * `run()`: register the callbacks and `hook_enable()` the threads, which
     * terminates the process when the thread objects still own threads;
     * otherwise log `hook_enable()`'s status.
     */
    method Run()
      requires !aborted
      modifies this
      ensures old(threadsJoinable) ==> Snapshot() == old(Snapshot()).(aborted := true)
      ensures !old(threadsJoinable) ==>
        Snapshot() == old(Snapshot()).(launches := old(launches) + 1, threadsJoinable := true,
                                       reports := old(reports) + ReportsOf(RunReport(HookEnableStatus)))
    {
      if threadsJoinable {
        aborted := true;
        return;
      }
      threadsJoinable := true;
      launches := launches + 1;
      var status := HookEnableStatus;
      reports := reports + ReportsOf(RunReport(status));
    }

    /** `StartHook`: `ok` is false exactly when the call never returns, the process having terminated. */
    method StartHook(args: seq<JsValue>, cwd: string, windows: bool, fopenOk: bool) returns (ok: bool)
      requires !aborted
      modifies this
      ensures ok <==> !Snapshot().aborted
      ensures Snapshot() == StartHookSpec(old(Snapshot()), args, cwd, windows, fopenOk)
    {
      if !running {
        if logFile.None? {
          if fopenOk {
            logFile := Some(LogPath(cwd, windows));
          }
        }
        if |args| > 0 {
          if |args| == 2 {
            debug := AsBoolean(args[1]);
          }
          if args[0].JsFunction? {
            callbackSet := true;
            running := true;
            Run();
          }
        }
      }
      ok := !aborted;
    }

    method Stop(stopStatus: Status)
      modifies this
      ensures Snapshot() == StopSpec(old(Snapshot()), stopStatus)
    {
      reports := reports + [StopReport(stopStatus)];
      running := false;
      if logFile.Some? {
        logFile := None;
      }
    }

    method StopHook(stopStatus: Status) returns (ok: bool)
      requires !aborted
      modifies this
      ensures ok
      ensures Snapshot() == StopHookSpec(old(Snapshot()), stopStatus)
    {
      if running {
        Stop(stopStatus);
      }
      ok := true;
    }

    method DebugEnable(args: seq<JsValue>) returns (ok: bool)
      requires !aborted
      modifies this
      ensures ok
      ensures Snapshot() == DebugEnableSpec(old(Snapshot()), args)
    {
      if |args| > 0 {
        debug := AsBoolean(args[0]);
      }
      ok := true;
    }
  }
}
