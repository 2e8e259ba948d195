/**
 * The profiler's two classes. Instrumentor owns the output stream and the
 * current session; InstrumentationTimer reports one measurement to it.
 * Each method is proved against the matching step function of
 * SessionModel or TimerModel, whose properties are proved there.
 */
module Instrumentation {
  import opened Wrappers
  import opened TraceFormat
  import SessionModel
  import TimerModel

  /** `std::replace`: every `from` in the array becomes `to`, in place. */
  method Replace(a: array<char>, from: char, to: char)
    modifies a
    ensures a[..] == ReplaceAll(old(a[..]), from, to)
  {
    for i := 0 to a.Length
      invariant forall k :: 0 <= k < i ==> a[k] == (if old(a[k]) == from then to else old(a[k]))
      invariant forall k :: i <= k < a.Length ==> a[k] == old(a[k])
    {
      if a[i] == from {
        a[i] := to;
      }
    }
  }

  class Instrumentor {
    /** The file system the output stream writes to. */
    var files: map<string, string>
    var currentSession: Option<SessionModel.InstrumentationSession>
    /** The path the output stream has open, if it is open. */
    var outputStream: Option<string>
    /** Every result handed to WriteProfile, whether written or dropped. */
    ghost var submitted: seq<ProfileResult>

    function State(): SessionModel.State
      reads this
    {
      SessionModel.State(files, currentSession, outputStream)
    }

    ghost predicate Valid()
      reads this
    {
      SessionModel.Valid(State())
    }

    constructor(files: map<string, string>)
      ensures Valid() && State() == SessionModel.Initial(files) && submitted == []
    {
      this.files := files;
      currentSession := None;
      outputStream := None;
      submitted := [];
    }

    /**
     * `openOk` is whether opening `filepath` for writing succeeds; a
     * successful open truncates the file.
     */
    method BeginSession(name: string, openOk: bool, filepath: string := SessionModel.DefaultPath)
      requires Valid()
      modifies this
      ensures Valid() && State() == SessionModel.BeginSession(old(State()), name, filepath, openOk)
      ensures submitted == old(submitted)
    {
      if currentSession.Some? {
        InternalEndSession();
      }
      if openOk {
        outputStream := Some(filepath);
        files := files[filepath := []];
      }
      if outputStream.Some? {
        currentSession := Some(SessionModel.InstrumentationSession(name));
        WriteHeader();
      }
    }

    method EndSession()
      requires Valid()
      modifies this
      ensures Valid() && State() == SessionModel.EndSession(old(State()))
      ensures submitted == old(submitted)
    {
      InternalEndSession();
    }

    /**
     * Builds the fragment for `result` (its name sanitised), then appends it
     * if a session is open.
     */
    method WriteProfile(result: ProfileResult)
      requires Valid()
      modifies this
      ensures Valid() && State() == SessionModel.WriteProfile(old(State()), result)
      ensures submitted == old(submitted) + [result]
    {
      var buffer := new char[|result.name|](i requires 0 <= i < |result.name| => result.name[i]);
      assert buffer[..] == result.name;
      Replace(buffer, Quote, Apostrophe);
      var name := buffer[..];

      var json := EventOpen;
      json := json + IntText(result.elapsed);
      json := json + NameKey;
      json := json + name;
      json := json + AfterName;
      json := json + NatText(result.threadId);
      json := json + TsKey;
      json := json + FixedMicros(result.start);
      json := json + EventClose;
      FragmentLayout(result, name);

      if currentSession.Some? {
        Write(json);
      }
      submitted := submitted + [result];
    }

    /** `m_OutputStream << text` on the open stream. */
    method Write(text: string)
      requires Valid() && outputStream.Some?
      modifies this
      ensures Valid() && State() == SessionModel.Append(old(State()), text)
      ensures submitted == old(submitted)
    {
      var path := outputStream.value;
      files := files[path := files[path] + text];
    }

    method WriteHeader()
      requires Valid() && outputStream.Some?
      modifies this
      ensures Valid() && State() == SessionModel.Append(old(State()), Header)
      ensures submitted == old(submitted)
    {
      Write(Header);
    }

    method WriteFooter()
      requires Valid() && outputStream.Some?
      modifies this
      ensures Valid() && State() == SessionModel.Append(old(State()), Footer)
      ensures submitted == old(submitted)
    {
      Write(Footer);
    }

    method InternalEndSession()
      requires Valid()
      modifies this
      ensures Valid() && State() == SessionModel.InternalEndSession(old(State()))
      ensures submitted == old(submitted)
    {
      if currentSession.Some? {
        WriteFooter();
        outputStream := None;
        currentSession := None;
      }
    }
  }

  /** The successive appends of WriteProfile build exactly Fragment(r). */
  lemma FragmentLayout(r: ProfileResult, name: string)
    requires name == Sanitise(r.name)
    ensures EventOpen + IntText(r.elapsed) + NameKey + name + AfterName + NatText(r.threadId)
            + TsKey + FixedMicros(r.start) + EventClose == Fragment(r)
  {
    var a, b, c, d := EventOpen, IntText(r.elapsed), NameKey, name;
    var e, f, g, h, i := AfterName, NatText(r.threadId), TsKey, FixedMicros(r.start), EventClose;
    AppendAssociative(a + b + c + d + e + f + g, h, i);
    AppendAssociative(a + b + c + d + e + f, g, h + i);
    AppendAssociative(a + b + c + d + e, f, g + (h + i));
    AppendAssociative(a + b + c + d, e, f + (g + (h + i)));
    AppendAssociative(a + b + c, d, e + (f + (g + (h + i))));
    AppendAssociative(a + b, c, d + (e + (f + (g + (h + i)))));
    AppendAssociative(a, b, c + (d + (e + (f + (g + (h + i))))));
  }

  class InstrumentationTimer {
    const name: string
    const startTimepoint: nat
    var stopped: bool
    /** The Instrumentor this timer reports to (`Instrumentor::Get()` in the C++ code). */
    const sink: Instrumentor

    function Value(): TimerModel.Timer
      reads this
    {
      TimerModel.Timer(name, startTimepoint, stopped)
    }

    /** `now` is the steady-clock reading taken at construction, in nanoseconds. */
    constructor(name: string, now: nat, sink: Instrumentor)
      ensures Value() == TimerModel.Start(name, now) && this.sink == sink
    {
      this.name := name;
      this.sink := sink;
      startTimepoint := now;
      stopped := false;
    }

    /** Measures up to `now` and submits the result; there is no guard on `stopped`. */
    method Stop(now: nat, threadId: nat)
      requires sink.Valid()
      modifies this, sink
      ensures sink.Valid()
      ensures
        var step := TimerModel.Step(old(Value()), TimerModel.StopCall(TimerModel.Instant(now, threadId)));
        && Value() == step.0
        && sink.submitted == old(sink.submitted) + step.1
        && sink.State() == SessionModel.WriteAll(old(sink.State()), step.1)
    {
      var elapsedTime := TimerModel.ElapsedMicros(startTimepoint, now);
      sink.WriteProfile(ProfileResult(name, startTimepoint, elapsedTime, threadId));
      stopped := true;
    }

    /** The destructor, run on scope exit: stops the timer unless already stopped. */
    method Destroy(now: nat, threadId: nat)
      requires sink.Valid()
      modifies this, sink
      ensures sink.Valid()
      ensures
        var step := TimerModel.Step(old(Value()), TimerModel.ScopeExit(TimerModel.Instant(now, threadId)));
        && Value() == step.0
        && sink.submitted == old(sink.submitted) + step.1
        && sink.State() == SessionModel.WriteAll(old(sink.State()), step.1)
    {
      if !stopped {
        Stop(now, threadId);
      }
    }
  }
}
