# iohook native addon — a Dafny model of its event pipeline and session

The iohook addon (`src/iohook.cc`) connects libuiohook, a global keyboard and
mouse hook, to JavaScript. The hook thread hands each input event to
`dispatch_proc`. That function copies keyboard, mouse and wheel events into a
FIFO queue (`handle_event`). A forwarder thread (`process_events_proc`) takes
the front event, forwards it to the JavaScript callback through a thread-safe
function (`NonBlockingCall`) and pops it, whether or not the call was
accepted. On the JavaScript thread, `CallJs` decodes the raw event into an
object with `type/mask/time` and at most one of `keyboard`, `mouse` and `wheel`.
Three entry points drive a small state machine over `sIsRunning`, `sIsDebug`,
the log file and the registered callback: `startHook`, `stopHook` and
`debugEnable`.

The model has five modules, one per file:

- `events.dfy` (`Events`): event kinds, the raw event, 16-bit narrowing, and the decoder `CallJs`.
- `pipeline.dfy` (`Pipeline`): the dispatch filter, the queue as a class (`Push`, `Dispatch`, `DrainStep`, `Drain`), and the accepted/dropped streams.
- `reports.dfy` (`Reports`): the status switches of `run()`, `stop()` and `hook_thread_proc`, and where `logger_proc` writes.
- `clock.dfy` (`Clock`): `current_time_milliseconds` and the Windows `gettimeofday` shim.
- `session.dfy` (`Session`): the log-path choice, the session state, and its transitions as pure functions. A `Session` class holds the globals, and its methods are proved to follow those functions.

Assumptions made explicit:

- libuiohook's `event_type` values are taken to be 1..11 in declaration order: HookEnabled, HookDisabled, KeyTyped, KeyPressed, KeyReleased, MouseClicked, MousePressed, MouseReleased, MouseMoved, MouseDragged, MouseWheel (`Events.Code`). The range tests in `CallJs` depend only on this order.
- Status codes are opaque. `Reports.Status` names the codes the switches test, and `OtherStatus` stands for any other value. The named codes are assumed to be pairwise distinct and distinct from every `OtherStatus` value, as the `case` labels of a C `switch` must be.
- The `VC_*` modifier key codes are opaque too. They are the record `Events.ModifierCodes`.
- The following are inputs:
  - the boundary's answer to each `NonBlockingCall`;
  - the status `hook_stop()` returns;
  - the working directory;
  - whether `fopen` succeeds;
  - the FILETIME tick count;
  - the time-zone bias.

Behaviours of the code the model makes explicit:

- `hook_enable()` returns UIOHOOK_SUCCESS unconditionally, so the error cases of `run()`'s switch are never reached from `StartHook`. The model has `run()` log `RunReport(HookEnableStatus)`, and `Session.StartWhenStopped` proves the log does not grow. The real `hook_run()` status is only logged by `hook_thread_proc`, and at DEBUG level, not ERROR (`Reports.HookThreadReport`).
- `stop()` has no success case, so a successful `hook_stop()` is logged as "An unknown hook error occurred." at ERROR (`Reports.StopReport`).
- `Stop()` clears `sIsRunning` and closes the log file. It does not release the thread-safe function, wake the forwarder, or join or detach either thread. In the model, `callbackSet` stays set after a stop, and `threadsJoinable` records that `hook_thread` and `event_thread` still own the first launch's threads.
- Because of that, a second launch is impossible: `hook_enable()` move-assigns the new threads onto `std::thread` objects that are still joinable, and that calls `std::terminate` (`aborted` in the model). `Session.Consistent` shows the threads are launched at most once in the life of the process. See "## Findings".
- The modifier flags come from the key code, not from the event mask. `Events.ModifiersIgnoreMask` proves that the mask does not affect them.
- The start guard tests only `sIsRunning`. There is no separate "starting" phase.

## Model

| member | source | states |
|---|---|---|
| Events.Code | src/iohook.cc:263-288 | the assumed numbering: codes lie in 1..11, the keyboard kinds are exactly the codes 3..5, the mouse kinds exactly 6..10 and the wheel exactly 11, which is what the range tests rely on |
| Events.KindOf | src/iohook.cc:263-288 | a raw type value names a kind only if it is that kind's code, and no kind otherwise (the enum-order assumption) |
| Events.KindOfCode | src/iohook.cc:263-288 | every kind's code is read back as that kind |
| Events.U16 | src/iohook.cc:259-261 | the `uint16_t` cast lands in [0, 2^16), is congruent to its input modulo 2^16, and is the identity on that range |
| Events.I16 | src/iohook.cc:284-285 | the `int16_t` cast lands in [-2^15, 2^15), is congruent modulo 2^16, and is the identity on that range |
| Events.Decode | src/iohook.cc:253-299 | type/mask/time are reported modulo 2^16; keyboard iff a key kind, mouse iff a mouse kind, wheel iff MouseWheel, so exactly one payload for input kinds and none for hook notifications or unknown types; keychar only for KeyTyped; each modifier flag iff the key code is one of its two codes; mouse and wheel fields narrowed to 16 bits |
| Events.ModifiersIgnoreMask | src/iohook.cc:266-269 | the keyboard record does not depend on the modifier mask |
| Events.TypedVersusPressed | src/iohook.cc:272-274 | KeyTyped reports keychar; KeyPressed with the same payload gives the same record without keychar |
| Events.ShiftPressFixture | src/iohook.cc:266-269 | pressing left shift sets shiftKey and no other flag |
| Events.WheelFixture | src/iohook.cc:288-298 | a wheel event with amount 3 and direction -1 is reported with amount 3 and direction -1 |
| Pipeline.IsQueued | src/iohook.cc:155-178 | an event is queued iff its type names one of the nine keyboard, mouse or wheel kinds; hook-enabled, hook-disabled and unknown types are not |
| Pipeline.QueuedIffDecodedWithPayload | src/iohook.cc:159-178 | the dispatch filter and the decoder's range tests agree: queued iff decoded with exactly one payload |
| Pipeline.Accepted | src/iohook.cc:205-211 | the accepted stream is no longer than the forwarded one |
| Pipeline.Dropped | src/iohook.cc:205-211 | the dropped stream is no longer than the forwarded one |
| Pipeline.AcceptedAppend | src/iohook.cc:195-212 | accepted and dropped streams of consecutive batches concatenate |
| Pipeline.AcceptedDroppedPartition | src/iohook.cc:205-211 | every forwarded event is either accepted or dropped, none lost or duplicated |
| Pipeline.DropDoesNotStall | src/iohook.cc:205-211 | a refused event k is dropped once and not retried, and the events after it are still forwarded |
| Pipeline.AllAccepted | src/iohook.cc:195-212 | when every call is accepted, every queued event is delivered in queue order |
| Pipeline.EventQueue.constructor | src/iohook.cc:72 | the queue starts empty with nothing forwarded |
| Pipeline.EventQueue.Push | src/iohook.cc:137-147 | a copy of the event is appended at the back; nothing else changes |
| Pipeline.EventQueue.Dispatch | src/iohook.cc:155-178 | the queue grows by the event exactly when it is queued, and is unchanged otherwise |
| Pipeline.EventQueue.DrainStep | src/iohook.cc:200-211 | the front event is forwarded and then removed whatever the boundary answered; the rest of the queue is unchanged |
| Pipeline.EventQueue.Drain | src/iohook.cc:195-212 | while running, the queue is emptied in FIFO order: forwarded = old queue, delivered and dropped grow by its accepted and refused events; when not running nothing changes |
| Pipeline.SubmitShared | src/iohook.cc:193-211 | as written, every forwarded event is stored in the one `ev` slot, and that slot's address is queued for every call |
| Pipeline.SubmitCopied | src/iohook.cc:205 | corrected: the i-th event gets its own cell i, and that cell is queued |
| Pipeline.HostReads | src/iohook.cc:253-261 | what each callback on the JavaScript thread reads: one read per queued address, the event stored at that address when it is read, none for an address that holds nothing |
| Pipeline.CopiedDeliversEach | src/iohook.cc:205 | with one cell per call, the host reads exactly the forwarded events in order |
| Pipeline.SharedSlotLosesEvent | src/iohook.cc:193-211 | with the shared slot, two different events forwarded back to back reach the host as the second one twice |
| Reports.RunReport | src/iohook.cc:316-380 | silent iff success; every other status gives one ERROR line carrying the status; the generic message exactly for failure, the XRecord get-context code and unnamed codes |
| Reports.StopReport | src/iohook.cc:232-251 | every status, success included, gives one ERROR line; the generic message except for out-of-memory and XRecord get-context |
| Reports.StopAgreesWithRun | src/iohook.cc:234-249 | run() and stop() give a status the same level and message text (trailing newline aside) exactly for out-of-memory, failure and unnamed codes |
| Reports.HookThreadReport | src/iohook.cc:180-188 | a failed hook_run is logged at DEBUG; success is not logged |
| Reports.LoggerSinks | src/iohook.cc:95-135 | the `[ms] ` prefix goes to stdout for every level; the message goes to stdout for DEBUG/INFO and to stderr for WARN/ERROR; both go to the log file exactly when one is open; the debug flag plays no part |
| Reports.SplitLines | src/iohook.cc:104-131 | every line touches stdout; it touches stderr exactly for WARN and ERROR, whose prefix and message then land on different console streams; the log file gets both halves exactly when open |
| Clock.TruncDiv | src/iohook.cc:92 | C division truncates toward zero |
| Clock.CurrentTimeMillis | src/iohook.cc:89-93 | for a valid timeval, the milliseconds divided by 1000 give the seconds, and the remainder is the microseconds divided by 1000 |
| Clock.UnixMicros | src/iohook.cc:28-30 | the ULONGLONG subtraction gives microseconds since 1970 after the epoch and wraps by 2^64 before it |
| Clock.I32 | src/iohook.cc:31 | storing into a 32-bit signed `long` lands in [-2^31, 2^31), is congruent to its input modulo 2^32, and is the identity on that range |
| Clock.FileTimeToTimeval | src/iohook.cc:28-32 | 0 <= tv_usec < 10^6 and tv_usec is the microseconds modulo 10^6; tv_sec is the whole seconds wrapped into the 32-bit `long` (in range and congruent modulo 2^32); before 2^31 seconds after 1970, tv_sec*10^6 + tv_usec equals the converted microseconds |
| Clock.WinGetTimeOfDay | src/iohook.cc:15-41 | returns 0; fills tv iff tv is non-null, with tv_usec in [0, 10^6), tv_sec in the 32-bit range, and the exact microseconds before 2038; fills tz iff tz is non-null, with the bias as minutes west and DST 0 |
| Clock.WindowsMillis | src/iohook.cc:89-93 | on Windows, before 2^31 seconds after 1970, the log timestamp is the converted microseconds divided by 1000 |
| Clock.WindowsMillisAfter2038 | src/iohook.cc:28-32 | from 2^31 up to 2^32 seconds after 1970 the Windows log timestamp is 2^32 seconds behind the true one, and negative |
| Session.AsBoolean | src/iohook.cc:433 | a boolean argument reads as its value, any other argument as false |
| Session.Contains | src/iohook.cc:422 | `strstr` finds nothing in a string shorter than the needle, and always finds the empty needle |
| Session.LogPath | src/iohook.cc:409-428 | the path is 20 or 29 characters long and always ends in build_app<sep>iohook.log |
| Session.ContainsIffOccurs | src/iohook.cc:422 | the `strstr` test holds iff the needle occurs at some position of the working directory |
| Session.LogPathChoice | src/iohook.cc:409-428 | the path is exactly build_app<sep>iohook.log when "electron" occurs somewhere in the working directory and exactly electron<sep>build_app<sep>iohook.log otherwise; only the platform's separator appears |
| Session.StartWhileRunning | src/iohook.cc:406-407 | StartHook while running changes nothing |
| Session.StartHookSpec | src/iohook.cc:403-446 | a no-op while running or after termination; launches at most once per call; never adds a log line (hook_enable always succeeds); terminates only when starting from stopped with the thread objects still joinable; keeps an open log file |
| Session.StopSpec | src/iohook.cc:383-392 | not running, log file closed, exactly one more line, which is stop()'s report of the status; launches and the thread objects unchanged |
| Session.StopHookSpec | src/iohook.cc:448-458 | afterwards the session is stopped (or the process terminated); launches, thread objects and termination unchanged; any change is exactly StopSpec |
| Session.DebugEnableSpec | src/iohook.cc:394-401 | changes nothing but the debug flag, which becomes the first argument read as a boolean when there is one |
| Session.InitialConsistent | src/iohook.cc:65-77 | the globals at load satisfy `Consistent`: not running, no threads, no launch |
| Session.EntryPointsKeepConsistent | src/iohook.cc:217-230 | every entry point keeps `Consistent`: thread objects own threads iff a launch happened, a running session has them, termination happens only while running, and at most one launch ever |
| Session.StartWhenStopped | src/iohook.cc:403-446 | from stopped and alive: running iff the first argument is a function; with a function, the threads are launched once if the thread objects are free and the process terminates iff they still own threads; debug set iff exactly two arguments; log file opened only if none is open; run() logs nothing |
| Session.StartTwiceLaunchesOnce | src/iohook.cc:406-443 | two starts in a row launch the threads at most once |
| Session.StopEffect | src/iohook.cc:383-392 | after Stop: not running, no open log file, exactly one more ERROR line, and debug, callback, launches and the thread objects unchanged |
| Session.StopHookGuard | src/iohook.cc:448-458 | StopHook calls Stop only while running (in a live process), and a second StopHook is a no-op |
| Session.RestartAfterStopTerminates | src/iohook.cc:217-222 | as written, StartHook with a callback after a StopHook terminates the process without a second launch or any run() log line |
| Session.StartStopStartFixture | src/iohook.cc:383-446 | start, stop, start with a callback: the first start launches once, the stop leaves the threads joinable, the second start terminates |
| Session.StopReleasedSpec | src/iohook.cc:383-392 | corrected Stop: not running and the thread objects released; otherwise exactly the Stop as written |
| Session.StopHookReleasedSpec | src/iohook.cc:448-458 | corrected StopHook: a live running session ends stopped with the thread objects released; otherwise exactly the StopHook as written |
| Session.ReleasedEntryPointsKeepConsistent | src/iohook.cc:383-392 | with a Stop that releases the threads, thread objects own threads exactly while running and the process never terminates |
| Session.RestartAfterReleasedStop | src/iohook.cc:383-446 | with a Stop that releases the threads, a start with a callback after a stop runs again with a fresh launch, reopens the log file, and logs only the stop line |
| Session.DebugNeverRead | src/iohook.cc:394-434 | the debug flag is written but never read: its value changes nothing else that StartHook or StopHook does, and DebugEnable changes nothing but it |
| Session.Session.constructor | src/iohook.cc:65-77 | the globals start not running, not debugging, with no log file, no callback and no threads |
| Session.Session.Run | src/iohook.cc:304-316 | if the thread objects still own threads, the assignment in hook_enable() (src/iohook.cc:221) terminates the process and nothing else changes; otherwise the threads are launched once and hook_enable's status is logged as RunReport classifies it |
| Session.Session.StartHook | src/iohook.cc:403-446 | returns (true) exactly when the process has not terminated, and moves the globals as StartHookSpec says |
| Session.Session.Stop | src/iohook.cc:383-392 | moves the globals as StopSpec says |
| Session.Session.StopHook | src/iohook.cc:448-458 | returns true and moves the globals as StopHookSpec says |
| Session.Session.DebugEnable | src/iohook.cc:394-401 | returns true and sets only the debug flag, from the first argument if there is one |

## Findings

| source | as written | input that shows it | evidently intended | confidence | as-written member | corrected member |
|---|---|---|---|---|---|---|
| src/iohook.cc:221-222, 383-392 | `Stop()` never joins or detaches `hook_thread` and `event_thread`, and `hook_enable()` move-assigns new threads onto them | `startHook(cb)`, `stopHook()`, `startHook(cb)`: the second `hook_thread = std::thread(...)` assigns onto a joinable thread, which calls `std::terminate` | stopping releases both threads, so the hook can be started again | high, not executed (follows from the `std::thread` move-assignment rule) | Session.RestartAfterStopTerminates | Session.RestartAfterReleasedStop |
| src/iohook.cc:193-211 | the forwarder passes `&ev` to `NonBlockingCall`. `ev` is one local that every loop iteration overwrites, and the JavaScript thread reads it later in `CallJs` | two different events queued and forwarded before the JavaScript thread runs: the callback receives the second event twice, and the first is lost | each call carries its own copy of the event, so the callback sees every forwarded event once, in order | medium, not executed (needs the forwarder to run ahead of the JavaScript thread) | Pipeline.SharedSlotLosesEvent | Pipeline.CopiedDeliversEach |

The queue class models forwarding with the corrected, copy-per-call semantics: `forwarded` and `delivered` hold event values. The `Session` class keeps the `Stop()` as written, so its state can reach `aborted`; the corrected stop is the pair `Session.StopReleasedSpec` and `Session.StopHookReleasedSpec`.

## Left out

- Threads, `std::mutex`, and the condition variable's wait and notify. These are concurrency. The drain loop is modelled as sequential steps. Thread creation is modelled only as whether the two `std::thread` objects own a thread. Liveness is not modelled, in particular that `Stop()` never wakes the forwarder, which may stay blocked on the condition variable.
- After `std::terminate` nothing runs: the `Session` methods require a process that has not terminated, and the transition functions leave a terminated state unchanged.
- Pipeline.EventQueue.Drain: runs until the queue is empty, where the real thread would block on the condition variable. The boundary's answers are supplied as a sequence, one per queued event.
- N-API machinery (`TSFN::New`, `Acquire`, `Release`, `Object::New`, `callback.Call`, `Init`, `NODE_API_MODULE`). These are foreign calls. The answer of `NonBlockingCall` is an input, and registering a callback is the flag `callbackSet`.
- Session.AsBoolean reads a non-boolean argument as false. N-API also leaves a pending JavaScript exception in that case, which is not modelled.
- libuiohook entry points (`hook_run`, `hook_stop`, `hook_set_logger_proc`, `hook_set_dispatch_proc`) and the numeric values of the `UIOHOOK_*`, `EVENT_*` and `VC_*` constants. The header that defines them is not part of this model.
- Events.Decode: requires the payload to be the union member that matches the event's category, as libuiohook fills it. Reading a mismatched member through the union is not modelled.
- `logger_proc` output: the timestamp value in the prefix, `fprintf`/`vfprintf` formatting, the `%#X` rendering of the status, the trailing newlines, and its boolean result. The reuse of a `va_list` without `va_copy` is undefined behaviour and is not modelled. Only the choice of streams is modelled, for the prefix and the message separately (`Reports.LoggerSinks`), with the log levels as a four-valued datatype.
- The log lines in `dispatch_proc`, `handle_event`, `process_events_proc`, `CallJs`, `StartHook` and `StopHook`, the WARN line at the start of `hook_thread_proc` (src/iohook.cc:181), the DEBUG line in `hook_enable()` (src/iohook.cc:226) and the two DEBUG lines around the `hook_enable()` call in `run()` (src/iohook.cc:313, 315). They only write logs; `reports` holds only the status lines of the switches.
- `fopen`, `fclose` and `getcwd`. The open log file is its path or None, the working directory is an input, and the `FILENAME_MAX` buffer bound is not modelled.
- OS time sources (`GetSystemTimeAsFileTime`, `GetSystemTimePreciseAsFileTime`, `GetTimeZoneInformation`, POSIX `gettimeofday`). The tick count and the bias are inputs.
- Clock.CurrentTimeMillis: does not model long long overflow for POSIX `tv_sec` values beyond about 9.2·10^15 seconds. On Windows `tv_sec` is a 32-bit `long`, so the product cannot overflow; there the seconds wrap instead (`Clock.FileTimeToTimeval`, `Clock.WindowsMillisAfter2038`).
- `src/iohook.h`. It declares an unused worker class with no bodies.
- The unused `test_event` global and the unused `UIOHOOK_ERROR_THREAD_CREATE` constant.
