/**
 * The InstrumentationTimer's lifecycle over values: the one `stopped` flag,
 * what each Stop or scope exit submits, and the readings of the steady
 * clock as nanosecond counts supplied by the caller.
 */
module TimerModel {
  import opened TraceFormat

  /**
   * Whole microseconds between two steady-clock readings given in
   * nanoseconds: each reading is truncated to microseconds, then the two
   * are subtracted.
   */
  function ElapsedMicros(startNs: nat, endNs: nat): (us: int)
    ensures startNs <= endNs ==> 0 <= us
    ensures endNs - startNs - 999 <= us * 1000 <= endNs - startNs + 999
  {
    endNs / 1000 - startNs / 1000
  }

  datatype Timer = Timer(name: string, start: nat, stopped: bool)

  /** A clock reading and the identity of the thread that takes it. */
  datatype Instant = Instant(now: nat, threadId: nat)

  /** The two ways a timer's report is triggered. */
  datatype TimerEvent = StopCall(at: Instant) | ScopeExit(at: Instant)

  /** A timer just constructed: it has read the clock and is not stopped. */
  function Start(name: string, now: nat): (t: Timer)
    ensures t.name == name && t.start == now && !t.stopped
  {
    Timer(name, now, false)
  }

  /** The result Stop submits when called at `at`. */
  function Measure(t: Timer, at: Instant): (r: ProfileResult)
    ensures r.name == t.name && r.start == t.start && r.threadId == at.threadId
    ensures r.elapsed == ElapsedMicros(t.start, at.now)
    ensures t.start <= at.now ==> 0 <= r.elapsed
  {
    ProfileResult(t.name, t.start, ElapsedMicros(t.start, at.now), at.threadId)
  }

  /**
   * One event: an explicit Stop always submits and sets the flag; a scope
   * exit submits (by calling Stop) only if the flag is still clear.
   */
  function Step(t: Timer, e: TimerEvent): (r: (Timer, seq<ProfileResult>))
    ensures r.0.stopped && r.0.name == t.name && r.0.start == t.start
  {
    match e
    case StopCall(at) => (t.(stopped := true), [Measure(t, at)])
    case ScopeExit(at) => if t.stopped then (t, []) else (t.(stopped := true), [Measure(t, at)])
  }

  /** Everything a timer submits over a sequence of events. */
  function Run(t: Timer, evs: seq<TimerEvent>): (rs: seq<ProfileResult>)
    ensures |rs| <= |evs|
    decreases |evs|
  {
    if evs == [] then [] else Step(t, evs[0]).1 + Run(Step(t, evs[0]).0, evs[1..])
  }

  function StopCalls(stops: seq<Instant>): (evs: seq<TimerEvent>)
    ensures |evs| == |stops|
    ensures forall i :: 0 <= i < |stops| ==> evs[i] == StopCall(stops[i])
  {
    if stops == [] then [] else [StopCall(stops[0])] + StopCalls(stops[1..])
  }

  /**
   * A timer stopped explicitly k times and then leaving its scope submits
   * k results when k > 0, and one result (from the scope exit) when k = 0
   * and it had not been stopped before.
   */
  lemma {:induction false} ScopeReportCount(t: Timer, stops: seq<Instant>, exit: Instant)
    ensures |Run(t, StopCalls(stops) + [ScopeExit(exit)])| ==
            |stops| + (if t.stopped || |stops| > 0 then 0 else 1)
    decreases |stops|
  {
    var evs := StopCalls(stops) + [ScopeExit(exit)];
    if stops != [] {
      assert evs[0] == StopCall(stops[0]);
      assert evs[1..] == StopCalls(stops[1..]) + [ScopeExit(exit)];
      ScopeReportCount(Step(t, evs[0]).0, stops[1..], exit);
    } else {
      assert evs == [ScopeExit(exit)];
    }
  }

  /**
   * A fresh timer reports exactly once whether it is stopped once and then
   * destroyed, or only destroyed; the report is measured at the Stop if
   * there was one, else at the scope exit.
   */
  lemma ReportsExactlyOnce(name: string, startNs: nat, stops: seq<Instant>, exit: Instant)
    requires |stops| <= 1
    ensures
      var t := Start(name, startNs);
      Run(t, StopCalls(stops) + [ScopeExit(exit)]) == [Measure(t, if |stops| == 1 then stops[0] else exit)]
  {
  }

  /** Stop has no guard of its own: two explicit calls submit twice. */
  lemma StopTwiceSubmitsTwice(t: Timer, a: Instant, b: Instant)
    ensures Run(t, [StopCall(a), StopCall(b)]) == [Measure(t, a), Measure(t, b)]
  {
  }

  /**
   * Every result a timer submits carries its name and start, and with a
   * monotonic clock (no reading earlier than the start) a non-negative
   * duration.
   */
  lemma {:induction false} RunReportsTimer(t: Timer, evs: seq<TimerEvent>)
    requires forall i :: 0 <= i < |evs| ==> t.start <= evs[i].at.now
    ensures forall r :: r in Run(t, evs) ==> r.name == t.name && r.start == t.start && 0 <= r.elapsed
    decreases |evs|
  {
    if evs != [] {
      RunReportsTimer(Step(t, evs[0]).0, evs[1..]);
    }
  }
}
