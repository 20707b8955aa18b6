/**
 * Reports: how the addon turns libuiohook status codes into log lines
 * (`run()`, `stop()`, `hook_thread_proc`) and which streams `logger_proc`
 * writes a line to. Status codes are opaque: the named codes the switches
 * test, plus `OtherStatus` for any value none of them names.
 */
module Reports {
  import opened Events

  datatype Level = Debug | Info | Warn | Error

  datatype Status =
    | Success | Failure | OutOfMemory
    | XOpenDisplay | XRecordNotFound | XRecordAllocRange | XRecordCreateContext
    | XRecordEnableContext | XRecordGetContext
    | SetWindowsHookEx
    | AxapiDisabled | CreateEventPort | CreateRunLoopSource | GetRunloop | CreateObserver
    | OtherStatus(code: int)

  /** One log line: its severity, its text, and the status printed after it. */
  datatype Report = Report(level: Level, message: string, status: Status)

  const UnknownError: string := "An unknown hook error occurred."

  /** The switch in `run()`: silent on success, one ERROR line for every other status. */
  function RunReport(s: Status): (r: Option<Report>)
    ensures r.None? <==> s == Success
    ensures r.Some? ==> r.value.level == Error && r.value.status == s
    ensures r.Some? ==> (r.value.message == UnknownError <==> s.Failure? || s.XRecordGetContext? || s.OtherStatus?)
  {
    match s
    case Success => None
    case OutOfMemory => Some(Report(Error, "Failed to allocate memory.", s))
    case XOpenDisplay => Some(Report(Error, "Failed to open X11 display.", s))
    case XRecordNotFound => Some(Report(Error, "Unable to locate XRecord extension.", s))
    case XRecordAllocRange => Some(Report(Error, "Unable to allocate XRecord range.", s))
    case XRecordCreateContext => Some(Report(Error, "Unable to allocate XRecord context.", s))
    case XRecordEnableContext => Some(Report(Error, "Failed to enable XRecord context.", s))
    case SetWindowsHookEx => Some(Report(Error, "Failed to register low level windows hook.", s))
    case AxapiDisabled => Some(Report(Error, "Failed to enable access for assistive devices.", s))
    case CreateEventPort => Some(Report(Error, "Failed to create apple event port.", s))
    case CreateRunLoopSource => Some(Report(Error, "Failed to create apple run loop source.", s))
    case GetRunloop => Some(Report(Error, "Failed to acquire apple run loop.", s))
    case CreateObserver => Some(Report(Error, "Failed to create apple run loop observer.", s))
    case _ => Some(Report(Error, UnknownError, s))
  }

  /**
   * The switch in `stop()`. It has no case for success, so every status,
   * success included, produces an ERROR line.
   */
  function StopReport(s: Status): (r: Report)
    ensures r.level == Error && r.status == s
    ensures r.message == UnknownError <==> !(s.OutOfMemory? || s.XRecordGetContext?)
  {
    match s
    case OutOfMemory => Report(Error, "Failed to allocate memory.", s)
    case XRecordGetContext => Report(Error, "Failed to get XRecord context.", s)
    case _ => Report(Error, UnknownError, s)
  }

  /**
   * `run()` and `stop()` report a status with the same level and message
   * text (trailing newline aside) exactly for the generic codes (out of
   * memory, failure, unnamed values); they differ on success
   * (only `stop()` reports it), on the XRecord get-context failure (only
   * `stop()` names it) and on the platform codes only `run()` names.
   */
  lemma StopAgreesWithRun(s: Status)
    ensures RunReport(s) == Some(StopReport(s)) <==> s.OutOfMemory? || s.Failure? || s.OtherStatus?
  {
  }

  /** The status line `hook_thread_proc` writes when `hook_run()` returns: DEBUG, failures only. */
  function HookThreadReport(s: Status): (r: Option<Report>)
    ensures r.None? <==> s == Success
    ensures r.Some? ==> r.value.level == Debug && r.value.status == s
  {
    if s == Success then None else Some(Report(Debug, "failed to initialize uiohook:", s))
  }

  /** `hook_enable()` spawns the two threads and returns UIOHOOK_SUCCESS unconditionally. */
  const HookEnableStatus: Status := Success

  datatype Sink = Stdout | Stderr | LogFile

  /**
   * Where `logger_proc` writes one log line: the `[<milliseconds>] ` prefix
   * and the formatted message go to separate sets of streams.
   */
  datatype LineSinks = LineSinks(prefix: set<Sink>, message: set<Sink>)

  /**
   * The streams `logger_proc` writes a line to. The prefix goes to stdout for
   * every level and to the log file when one is open; the message goes to
   * stdout for DEBUG and INFO, to stderr for WARN and ERROR, and to the log
   * file when one is open. The debug flag is not an input: the guard that
   * consulted it is commented out, so every line is written whatever the
   * flag says.
   */
  function LoggerSinks(level: Level, fileOpen: bool): (r: LineSinks)
    ensures Stdout in r.prefix && Stderr !in r.prefix
    ensures LogFile in r.prefix <==> fileOpen
    ensures Stdout in r.message <==> level == Debug || level == Info
    ensures Stderr in r.message <==> level == Warn || level == Error
    ensures LogFile in r.message <==> fileOpen
  {
    var file: set<Sink> := if fileOpen then {LogFile} else {};
    LineSinks(
      {Stdout} + file,
      (match level
       case Debug => {Stdout}
       case Info => {Stdout}
       case Warn => {Stderr}
       case Error => {Stderr})
      + file)
  }

  /**
   * A WARN or ERROR line is split across two console streams: its prefix on
   * stdout, its message on stderr; a DEBUG or INFO line stays on stdout. The
   * log file, when open, receives the whole line.
   */
  lemma SplitLines(level: Level, fileOpen: bool)
    ensures var r := LoggerSinks(level, fileOpen);
      (Stderr in r.prefix + r.message <==> level == Warn || level == Error) &&
      Stdout in r.prefix + r.message &&
      (fileOpen <==> LogFile in r.prefix && LogFile in r.message)
  {
  }
}
