# Instrumentor: a verified model of the Vega trace profiler

`Vega/src/Debug/Instrumentor.h` is a small profiler that writes a Chrome
Trace Event Format document. An `Instrumentor` owns an output stream and
at most one current session:

- `BeginSession` ends any open session, then opens (truncating) a file and
  writes a header whose first event is the empty sentinel object `{}`.
- `WriteProfile` turns a `ProfileResult` into one `,{...}` complete event
  (`"ph":"X"`). Every `"` in the name becomes `'`. The event is appended
  only while a session is open.
- `EndSession` writes the footer `]}`, closes the stream and clears the
  session. With no session open it does nothing.

An `InstrumentationTimer` reads the steady clock when it is constructed.
`Stop` measures and submits a result. The destructor calls `Stop` only if
the timer has not been stopped.

The project has five modules:

- `Wrappers` (wrappers.dfy): the `Option` type.
- `TraceFormat` (trace_format.dfy): the text that is written (header,
  footer, name sanitisation, number text, event fragments), and a reader
  for that text. The round-trip lemmas prove the reader inverts the writer.
- `SessionModel` (session_model.dfy): the `Instrumentor` as a state
  machine. Its `State` value has three parts: the file system as a
  `map<string, string>`, the current session, and the path the stream has
  open.
- `TimerModel` (timer_model.dfy): the timer lifecycle over its `stopped`
  flag.
- `Instrumentation` (instrumentation.dfy): the classes `Instrumentor` and
  `InstrumentationTimer`. Their fields are updated in place, and each
  method is proved against the matching step function. The ghost field
  `Instrumentor.submitted` logs every `WriteProfile` call, including calls
  that are dropped, so the "report exactly once" property can be stated.

Inputs from the environment are parameters:

- whether opening the file succeeds (`openOk`);
- steady-clock readings, as natural numbers of nanoseconds;
- the thread identity, as a natural number.

Notes on the code:

- `Stop` has no guard of its own, so two explicit calls submit twice
  (`TimerModel.StopTwiceSubmitsTwice`). Only the destructor checks
  `stopped`.
- The header has no space after `{},`.
- `dur` is an integer count of microseconds. `setprecision(3)` and `fixed`
  affect only `ts`.

## Model

| member | source | states |
|---|---|---|
| TraceFormat.ReplaceAll | Vega/src/Debug/Instrumentor.h:76 | the result has the input's length; each position holds `to` where the input held `from`, else the input character |
| TraceFormat.Sanitise | Vega/src/Debug/Instrumentor.h:75-76 | same length; no `"` left; every `"` becomes `'`; every other character is unchanged |
| TraceFormat.SanitiseIdempotent | Vega/src/Debug/Instrumentor.h:75-76 | sanitising an already sanitised name changes nothing |
| TraceFormat.SanitiseFixedIff | Vega/src/Debug/Instrumentor.h:75-76 | a name is written unchanged if and only if it contains no `"` |
| Instrumentation.Replace | Vega/src/Debug/Instrumentor.h:76 | the in-place `std::replace` loop leaves the array equal to `ReplaceAll` of its old contents |
| TraceFormat.NatText | Vega/src/Debug/Instrumentor.h:85 | decimal text is non-empty, all digits, with a leading `0` only for zero |
| TraceFormat.IntText | Vega/src/Debug/Instrumentor.h:81 | integer text is non-empty and starts with `-` exactly for negative values |
| TraceFormat.FixedMicros | Vega/src/Debug/Instrumentor.h:86 | fixed-point text ends in `.` followed by exactly three digits |
| TraceFormat.NatTextRoundTrip | Vega/src/Debug/Instrumentor.h:85 | reading the decimal text of `n` back, before any non-digit, gives `n` and the rest |
| TraceFormat.IntTextRoundTrip | Vega/src/Debug/Instrumentor.h:81 | reading the written duration back gives the same signed integer |
| TraceFormat.FixedMicrosRoundTrip | Vega/src/Debug/Instrumentor.h:78 | reading the three-decimal microsecond text back gives the same nanosecond count |
| TraceFormat.NameRoundTrip | Vega/src/Debug/Instrumentor.h:82 | a quote-free name is read back exactly, stopping at its closing quote |
| TraceFormat.FragmentRoundTrip | Vega/src/Debug/Instrumentor.h:79-87 | one fragment reads back as the result with its name sanitised; the fields are in the fixed order cat, dur, name, ph, pid, tid, ts; reading stops right after the fragment's `}` |
| TraceFormat.EventsRoundTrip | Vega/src/Debug/Instrumentor.h:91 | the fragments of N results read back as exactly those N results, in order |
| TraceFormat.DocumentRoundTrip | Vega/src/Debug/Instrumentor.h:103-113 | header ++ fragments ++ footer reads back as exactly N events after the sentinel, in recording order |
| TraceFormat.Fragment | Vega/src/Debug/Instrumentor.h:78-87 | a fragment starts with the leading comma and `{"cat":"function","dur":`, and ends with `}`; its full layout is pinned by `FragmentRoundTrip` |
| TraceFormat.EmptySessionDocument | Vega/src/Debug/Instrumentor.h:103-113 | `Header` followed by `Footer` is exactly `{"otherData": {},"traceEvents":[{}]}`, which reads back as no events: the sentinel `{}` is not an event |
| Instrumentation.FragmentLayout | Vega/src/Debug/Instrumentor.h:78-87 | the successive `<<` appends in WriteProfile build exactly `Fragment(r)` |
| SessionModel.Initial | Vega/src/Debug/Instrumentor.h:39-42 | a new Instrumentor has no session open and a consistent state |
| SessionModel.Append | Vega/src/Debug/Instrumentor.h:91 | the open file grows by exactly the text; no other file, the session and the stream stay as they were |
| SessionModel.InternalEndSession | Vega/src/Debug/Instrumentor.h:117-124 | with a session open: the footer is appended to its file, the stream is closed and the session cleared; with none open: nothing changes |
| SessionModel.EndSession | Vega/src/Debug/Instrumentor.h:65-69 | with a session open: the footer is appended to its file, and the stream and session are cleared; with none open: nothing changes; afterwards no session is open and the set of files is unchanged |
| SessionModel.BeginSession | Vega/src/Debug/Instrumentor.h:44-63 | a session is open afterwards if and only if the open succeeded; on success it is named `name`, the stream is on `path`, and `path` holds exactly the header, and the files are those the implicit end left plus `path`; every other file is as the implicit end left it; on failure the state is exactly the implicit end's |
| SessionModel.WriteProfile | Vega/src/Debug/Instrumentor.h:71-94 | with a session open: exactly its fragment is appended to the open file and every other file, the session and the stream are unchanged; with none open: nothing changes |
| SessionModel.WriteAll | Vega/src/Debug/Instrumentor.h:89-93 | a run of writes keeps the state consistent and creates or deletes no file |
| SessionModel.EndSessionIdempotent | Vega/src/Debug/Instrumentor.h:117-124 | ending twice has the same effect as ending once |
| SessionModel.WriteAllKeepsSession | Vega/src/Debug/Instrumentor.h:89-93 | writes never open or close a session; with none open, any number of writes changes nothing |
| SessionModel.WriteAllAppends | Vega/src/Debug/Instrumentor.h:89-93 | with a session open, N writes append their N fragments in call order to its file and leave every other file unchanged |
| SessionModel.SessionDocument | Vega/src/Debug/Instrumentor.h:44-124 | successful begin, then N writes, then end: no session is open, the file holds exactly header ++ fragments ++ footer, and it reads back as the N results |
| SessionModel.SecondBeginClosesFirst | Vega/src/Debug/Instrumentor.h:47-51 | beginning session B while A is open finishes A's file with its footer; A's file and B's file each hold only their own events |
| SessionModel.FailedBeginEndsSession | Vega/src/Debug/Instrumentor.h:47-62 | when a session is open and the new open fails, the old file gets its footer and no session is open afterwards |
| TimerModel.ElapsedMicros | Vega/src/Debug/Instrumentor.h:148 | elapsed microseconds are non-negative for a monotonic clock, and within 999 ns of the true difference once scaled by 1000 |
| TimerModel.Start | Vega/src/Debug/Instrumentor.h:132-136 | a new timer carries its name and start reading and is not stopped |
| TimerModel.Measure | Vega/src/Debug/Instrumentor.h:146-150 | the submitted result carries the timer's name, its start and the calling thread; its duration is `ElapsedMicros` of the start and the reading, so it is non-negative when the reading is not earlier than the start |
| TimerModel.Step | Vega/src/Debug/Instrumentor.h:138-153 | after either event the timer is stopped and keeps its name and start |
| TimerModel.Run | Vega/src/Debug/Instrumentor.h:138-153 | a timer submits at most one result per event; how many exactly is stated by `ScopeReportCount` |
| TimerModel.ScopeReportCount | Vega/src/Debug/Instrumentor.h:138-153 | k explicit stops, then scope exit, submit k results if k > 0; if k = 0 they submit one result for a timer not yet stopped, and none for one already stopped |
| TimerModel.ReportsExactlyOnce | Vega/src/Debug/Instrumentor.h:138-142 | a fresh timer that is stopped once and destroyed, or only destroyed, submits exactly one result, measured at the Stop if there was one, else at the scope exit |
| TimerModel.StopTwiceSubmitsTwice | Vega/src/Debug/Instrumentor.h:144-153 | two explicit Stop calls submit two results, because Stop is unguarded |
| TimerModel.RunReportsTimer | Vega/src/Debug/Instrumentor.h:146-150 | every submitted result carries the timer's name and start; with a monotonic clock every duration is non-negative |
| Instrumentation.Instrumentor.constructor | Vega/src/Debug/Instrumentor.h:39-42 | no session and no open stream; the file system is as given |
| Instrumentation.Instrumentor.BeginSession | Vega/src/Debug/Instrumentor.h:44-63 | the new state is `SessionModel.BeginSession` of the old one; the default path is `results.json` |
| Instrumentation.Instrumentor.EndSession | Vega/src/Debug/Instrumentor.h:65-69 | the new state is `SessionModel.EndSession` of the old one |
| Instrumentation.Instrumentor.WriteProfile | Vega/src/Debug/Instrumentor.h:71-94 | the new state is `SessionModel.WriteProfile` of the old one, and the result is logged as submitted exactly once |
| Instrumentation.Instrumentor.Write | Vega/src/Debug/Instrumentor.h:91 | the text is appended to the file the stream has open |
| Instrumentation.Instrumentor.WriteHeader | Vega/src/Debug/Instrumentor.h:103-107 | the header is appended to the open file |
| Instrumentation.Instrumentor.WriteFooter | Vega/src/Debug/Instrumentor.h:109-113 | the footer is appended to the open file |
| Instrumentation.Instrumentor.InternalEndSession | Vega/src/Debug/Instrumentor.h:117-124 | the new state is `SessionModel.InternalEndSession` of the old one |
| Instrumentation.InstrumentationTimer.constructor | Vega/src/Debug/Instrumentor.h:132-136 | the timer is `TimerModel.Start(name, now)` and reports to the given Instrumentor |
| Instrumentation.InstrumentationTimer.Stop | Vega/src/Debug/Instrumentor.h:144-153 | the timer and the Instrumentor move as `TimerModel.Step` of an explicit stop says: one result is submitted, and written if a session is open |
| Instrumentation.InstrumentationTimer.Destroy | Vega/src/Debug/Instrumentor.h:138-142 | the timer and the Instrumentor move as `TimerModel.Step` of a scope exit says: one result if not yet stopped, none otherwise |

## Left out

- Locking: `std::mutex` and `std::lock_guard` only serialise threads, so the operations are modelled as sequential calls.
- File I/O: `std::ofstream` becomes an in-memory map from path to contents. Whether `open` succeeds is a parameter. `flush` has no effect, and `close` clears the stream's path. Write failures after a successful open (a full disk, say) are not modelled.
- Teardown: the process can end without `EndSession`, which leaves a file without its footer. The model has no teardown step.
- Clock: `std::chrono::steady_clock::now()` readings are parameters, in nanoseconds since the clock's epoch. Monotonicity is a precondition of the lemmas that need it.
- `ts` floating point: `ts` is a `double` count of microseconds, printed with three decimals. It is modelled as its exact value: the nanosecond count divided by 1000, with three decimals. Rounding is not modelled for readings so large that a `double` no longer holds the value to a thousandth of a microsecond.
- Thread ids: `std::thread::id` is modelled as a natural number written in decimal. The library's own formatting of thread ids is opaque.
- Logging: the `LOGW` and `LOGE` warnings do not affect state and are not modelled. `Debug/ConsoleLog.h` is not part of this model.
- Singleton: the function-static instance from `Instrumentor::Get()` is replaced by an explicit `Instrumentor` that each timer is given.
- Session allocation: `new` and `delete` of `InstrumentationSession` become an `Option` value.
- Macros: `HZ_FUNC_SIG` and the `PROFILE_*` macros are compiler-specific name sourcing and scope plumbing. They are not modelled.
- JSON escaping: backslashes and control characters in names are written raw, as in the source. `TraceFormat.ParseDocument` reads this format back; it is not an RFC 8259 parser. So the model does not claim the document is valid JSON for such names.
