/**
 The circuit breaker around the LLM calls (src/api/middleware/circuitBreaker.js). `execute` is cut at
 its one `await`: what runs before the wrapped call, and what runs after it, are atomic.
 */
module CircuitBreaker {
  datatype Mode = Closed | Open | HalfOpen

  /** How the wrapped call ended; an error that itself carries the code CIRCUIT_OPEN is passed through. */
  datatype Result = Success | Failure | NestedOpen

  datatype Breaker = Breaker(mode: Mode, failures: nat, lastFailure: int, probing: bool)

  datatype Limits = Limits(threshold: nat, timeout: int)

  const FRESH := Breaker(Closed, 0, 0, false)

  // ---------------------------------------------------------------- the two halves of `execute`

  /** Whether a call that arrives now may run. */
  predicate Admits(limits: Limits, b: Breaker, now: int) {
    match b.mode
    case Closed => true
    case HalfOpen => !b.probing
    case Open => now - b.lastFailure >= limits.timeout && !b.probing
  }

  function Admit(limits: Limits, b: Breaker, now: int): Breaker {
    if b.mode.Open? && Admits(limits, b, now) then b.(probing := true, mode := HalfOpen) else b
  }

  function Settle(limits: Limits, b: Breaker, result: Result, now: int): Breaker {
    match result
    case Success => b.(failures := 0, mode := if b.mode.HalfOpen? then Closed else b.mode, probing := false)
    case Failure =>
      b.(failures := b.failures + 1, lastFailure := now, probing := false,
         mode := if b.failures + 1 >= limits.threshold then Open else b.mode)
    case NestedOpen => b.(probing := false)
  }

  class CircuitBreaker {
    const limits: Limits
    var state: Mode
    var failureCount: nat
    var lastFailureTime: int
    var probing: bool

    function View(): Breaker
      reads this
    {
      Breaker(state, failureCount, lastFailureTime, probing)
    }

    constructor (limits: Limits)
      ensures this.limits == limits && View() == FRESH
    {
      this.limits := limits;
      state, failureCount, lastFailureTime, probing := Closed, 0, 0, false;
    }

    /** `execute` up to the call of `fn`; a refused caller gets the CIRCUIT_OPEN error. */
    method BeforeCall(now: int) returns (admitted: bool)
      modifies this
      ensures admitted == Admits(limits, old(View()), now)
      ensures View() == Admit(limits, old(View()), now)
      ensures !admitted ==> View() == old(View())
    {
      if state == HalfOpen && probing {
        return false;
      }
      if state == Open {
        if now - lastFailureTime >= limits.timeout {
          if probing {
            return false;
          }
          probing := true;
          state := HalfOpen;
        } else {
          return false;
        }
      }
      return true;
    }

    /** `execute` from the end of `fn`, with its `finally`. */
    method AfterCall(result: Result, now: int)
      modifies this
      ensures View() == Settle(limits, old(View()), result, now)
    {
      match result {
        case Success => OnSuccess();
        case Failure => OnFailure(now);
        case NestedOpen =>
      }
      probing := false;
    }

    method OnSuccess()
      modifies this
      ensures View() == old(View()).(failures := 0, mode := if old(state) == HalfOpen then Closed else old(state))
    {
      failureCount := 0;
      if state == HalfOpen {
        state := Closed;
      }
    }

    method OnFailure(now: int)
      modifies this
      ensures View() == old(View()).(failures := old(failureCount) + 1, lastFailure := now,
        mode := if old(failureCount) + 1 >= limits.threshold then Open else old(state))
    {
      failureCount := failureCount + 1;
      lastFailureTime := now;
      if failureCount >= limits.threshold && state != Open {
        state := Open;
      }
    }
  }

  // ---------------------------------------------------------------- interleaved calls

  /** How and when a call ended. */
  datatype Ended = Ended(result: Result, at: int)

  /** The breaker, the calls that are running (by their number), and how calls ended, in completion order. */
  datatype World = World(breaker: Breaker, running: set<nat>, next: nat, ended: seq<Ended>)

  datatype Event = Call(at: int) | Settled(id: nat, result: Result, at: int)

  const START := World(FRESH, {}, 0, [])

  function Step(limits: Limits, w: World, e: Event): World {
    match e
    case Call(now) =>
      if Admits(limits, w.breaker, now)
      then World(Admit(limits, w.breaker, now), w.running + {w.next}, w.next + 1, w.ended)
      else w
    case Settled(id, result, now) =>
      if id in w.running
      then w.(breaker := Settle(limits, w.breaker, result, now), running := w.running - {id},
        ended := w.ended + [Ended(result, now)])
      else w
  }

  function Run(limits: Limits, w: World, events: seq<Event>): World {
    if events == [] then w else Step(limits, Run(limits, w, events[..|events| - 1]), events[|events| - 1])
  }

  /** The failures at the end of the completions, not counting the passed through refusals. */
  function Trailing(ended: seq<Ended>): nat {
    if ended == [] then 0
    else
      match ended[|ended| - 1].result
      case Success => 0
      case Failure => Trailing(ended[..|ended| - 1]) + 1
      case NestedOpen => Trailing(ended[..|ended| - 1])
  }

  /** When a call last failed. */
  function LastFailure(ended: seq<Ended>): int {
    if ended == [] then 0
    else if ended[|ended| - 1].result.Failure? then ended[|ended| - 1].at
    else LastFailure(ended[..|ended| - 1])
  }

  ghost predicate Consistent(w: World) {
    && w.breaker.failures == Trailing(w.ended)
    && w.breaker.lastFailure == LastFailure(w.ended)
    && (w.breaker.probing ==> w.running != {})
    && (forall id :: id in w.running ==> id < w.next)
  }

  lemma StepConsistent(limits: Limits, w: World, e: Event)
    requires Consistent(w)
    ensures Consistent(Step(limits, w, e))
  {
    if e.Call? {
      assert w.next in w.running + {w.next};
    } else if e.id in w.running {
      assert (w.ended + [Ended(e.result, e.at)])[..|w.ended|] == w.ended;
    }
  }

  lemma {:induction false} RunConsistent(limits: Limits, events: seq<Event>)
    ensures Consistent(Run(limits, START, events))
  {
    if events != [] {
      RunConsistent(limits, events[..|events| - 1]);
      StepConsistent(limits, Run(limits, START, events[..|events| - 1]), events[|events| - 1]);
    }
  }

  /** However the calls overlap, the counter is the length of the trailing run of failures in completion order. */
  lemma CountsTrailingFailures(limits: Limits, events: seq<Event>)
    ensures var w := Run(limits, START, events); w.breaker.failures == Trailing(w.ended)
  {
    RunConsistent(limits, events);
  }

  // ---------------------------------------------------------------- calls that do not overlap

  /** One whole call: when it arrives, how its function would end, and when. */
  datatype Whole = Whole(at: int, result: Result, end: int)

  function Execute(limits: Limits, w: World, call: Whole): World {
    Step(limits, Step(limits, w, Call(call.at)), Settled(w.next, call.result, call.end))
  }

  function Sequential(limits: Limits, calls: seq<Whole>): World {
    if calls == [] then START else Execute(limits, Sequential(limits, calls[..|calls| - 1]), calls[|calls| - 1])
  }

  /** What the mode is between calls, told from the completions alone. */
  function ModeOf(limits: Limits, ended: seq<Ended>): Mode {
    if Trailing(ended) < limits.threshold then Closed
    else if ended != [] && ended[|ended| - 1].result.NestedOpen? then HalfOpen
    else Open
  }

  lemma ExecuteOne(limits: Limits, w: World, call: Whole)
    requires limits.threshold > 0 && Consistent(w) && w.running == {} && w.breaker.mode == ModeOf(limits, w.ended)
    ensures var after := Execute(limits, w, call);
      Consistent(after) && after.running == {} && after.breaker.mode == ModeOf(limits, after.ended)
  {
    var called := Step(limits, w, Call(call.at));
    StepConsistent(limits, w, Call(call.at));
    StepConsistent(limits, called, Settled(w.next, call.result, call.end));
    assert (w.ended + [Ended(call.result, call.end)])[..|w.ended|] == w.ended;
  }

  /**
   Calls that do not overlap: between calls the mode is a function of how calls ended. It is CLOSED exactly
   below `threshold` trailing failures, and otherwise OPEN unless the last call ended in somebody else's
   CIRCUIT_OPEN error.
   */
  lemma {:induction false} SequentialMode(limits: Limits, calls: seq<Whole>)
    requires limits.threshold > 0
    ensures var w := Sequential(limits, calls);
      Consistent(w) && w.running == {} && w.breaker.mode == ModeOf(limits, w.ended)
  {
    if calls != [] {
      SequentialMode(limits, calls[..|calls| - 1]);
      ExecuteOne(limits, Sequential(limits, calls[..|calls| - 1]), calls[|calls| - 1]);
    }
  }

  predicate NoNested(ended: seq<Ended>) {
    forall i :: 0 <= i < |ended| ==> !ended[i].result.NestedOpen?
  }

  lemma ExecuteNoNested(limits: Limits, w: World, call: Whole)
    requires NoNested(w.ended) && !call.result.NestedOpen?
    ensures NoNested(Execute(limits, w, call).ended)
  {
    var called := Step(limits, w, Call(call.at));
    assert called.ended == w.ended;
  }

  lemma {:induction false} SequentialNoNested(limits: Limits, calls: seq<Whole>)
    requires forall i :: 0 <= i < |calls| ==> !calls[i].result.NestedOpen?
    ensures NoNested(Sequential(limits, calls).ended)
  {
    if calls != [] {
      SequentialNoNested(limits, calls[..|calls| - 1]);
      ExecuteNoNested(limits, Sequential(limits, calls[..|calls| - 1]), calls[|calls| - 1]);
    }
  }

  /** Without such errors the breaker is never half open between calls. */
  lemma OpenExactlyAtThreshold(limits: Limits, calls: seq<Whole>)
    requires limits.threshold > 0 && forall i :: 0 <= i < |calls| ==> !calls[i].result.NestedOpen?
    ensures var w := Sequential(limits, calls);
      w.breaker.mode == (if Trailing(w.ended) >= limits.threshold then Open else Closed)
  {
    SequentialNoNested(limits, calls);
    SequentialMode(limits, calls);
  }

  // ---------------------------------------------------------------- when calls are let through

  /** An open breaker is never probing: the flag does not outlive the half open mode. */
  lemma {:induction false} OpenIsNotProbing(limits: Limits, events: seq<Event>)
    ensures var b := Run(limits, START, events).breaker; b.probing ==> b.mode == HalfOpen
  {
    if events != [] { OpenIsNotProbing(limits, events[..|events| - 1]); }
  }

  /**
   However the calls overlapped: an OPEN breaker lets a call through exactly when the timeout has passed since
   the last failure, and a breaker with nothing in flight never locks callers out for longer.
   */
  lemma OpenExactlyForTheTimeout(limits: Limits, events: seq<Event>, now: int)
    ensures var w := Run(limits, START, events);
      && (w.breaker.mode == Open ==> (Admits(limits, w.breaker, now) <==> now - LastFailure(w.ended) >= limits.timeout))
      && (w.running == {} && now - LastFailure(w.ended) >= limits.timeout ==> Admits(limits, w.breaker, now))
  {
    RunConsistent(limits, events);
    OpenIsNotProbing(limits, events);
  }

  // ---------------------------------------------------------------- the single probe

  /** From here on, as long as the first admitted call runs, no second one is admitted. */
  ghost predicate SingleProbe(limits: Limits, w: World) {
    forall events: seq<Event> :: w.next in Run(limits, w, events).running ==> Run(limits, w, events).next == w.next + 1
  }

  /** Before the probe has settled: still open and idle, or half open with the probe as the only call. */
  ghost predicate Probing(w: World, now: World) {
    || (now.next == w.next && now.breaker == w.breaker && now.running == {})
    || (now.next == w.next + 1 && now.running == {w.next} && now.breaker.mode == HalfOpen && now.breaker.probing)
    || (now.next > w.next && w.next !in now.running)
  }

  lemma {:induction false} ProbingKept(limits: Limits, w: World, events: seq<Event>)
    requires w.breaker.mode == Open && w.running == {}
    ensures Probing(w, Run(limits, w, events))
  {
    if events != [] {
      ProbingKept(limits, w, events[..|events| - 1]);
    }
  }

  /** An open breaker with a call still in flight lets two calls through: the late answer clears the way. */
  lemma LateAnswerAdmitsTwo(limits: Limits, w: World, late: nat)
    requires Consistent(w) && w.breaker.mode == Open && !w.breaker.probing && late in w.running
    ensures var at := w.breaker.lastFailure + limits.timeout;
      var after := Run(limits, w, [Call(at), Settled(late, Success, at), Call(at)]);
      w.next in after.running && after.next == w.next + 2
  {
    var at := w.breaker.lastFailure + limits.timeout;
    var events := [Call(at), Settled(late, Success, at), Call(at)];
    assert events[..2][..1] == [Call(at)] && [Call(at)][..0] == [];
    assert events[..2] == [Call(at), Settled(late, Success, at)];
    var probe := Step(limits, w, Call(at));
    assert Run(limits, w, []) == w;
    assert Run(limits, w, [Call(at)]) == probe;
    assert Run(limits, w, events[..2]) == Step(limits, probe, Settled(late, Success, at));
  }

  /**
   The comment in the source promises that only the probe runs while the circuit is half open. An open
   breaker keeps that promise exactly when nothing was still in flight.
   */
  lemma SingleProbeExactlyWhenIdle(limits: Limits, events: seq<Event>)
    requires Run(limits, START, events).breaker.mode == Open
    ensures var w := Run(limits, START, events); SingleProbe(limits, w) <==> w.running == {}
  {
    var w := Run(limits, START, events);
    RunConsistent(limits, events);
    OpenIsNotProbing(limits, events);
    if w.running == {} {
      forall more: seq<Event> | w.next in Run(limits, w, more).running
        ensures Run(limits, w, more).next == w.next + 1
      {
        ProbingKept(limits, w, more);
      }
    } else {
      var late :| late in w.running;
      LateAnswerAdmitsTwo(limits, w, late);
    }
  }

  /** Calls that do not overlap, from any state. */
  function OneByOne(limits: Limits, w: World, calls: seq<Whole>): World {
    if calls == [] then w else Execute(limits, OneByOne(limits, w, calls[..|calls| - 1]), calls[|calls| - 1])
  }

  /** Probes that fail, each made when the timeout has passed since the failure before it. */
  predicate FailInTime(limits: Limits, last: int, probes: seq<Whole>) {
    forall i :: 0 <= i < |probes| ==>
      probes[i].result.Failure? && probes[i].at - EndBefore(last, probes, i) >= limits.timeout
  }

  function EndBefore(last: int, probes: seq<Whole>, i: nat): int
    requires i < |probes|
  {
    if i == 0 then last else probes[i - 1].end
  }

  /** An open breaker with nothing in flight, whatever its counter is. */
  ghost predicate OpenAndIdle(w: World) {
    Consistent(w) && w.breaker.mode == Open && !w.breaker.probing && w.running == {}
  }

  lemma ProbeFails(limits: Limits, w: World, probe: Whole)
    requires Consistent(w) && !w.breaker.probing && w.running == {} && w.breaker.mode != Closed && probe.result.Failure?
    requires w.breaker.mode == Open ==> probe.at - w.breaker.lastFailure >= limits.timeout
    ensures var after := Execute(limits, w, probe);
      && Consistent(after) && !after.breaker.probing && after.running == {} && after.breaker.lastFailure == probe.end
      && after.next == w.next + 1 && after.breaker.failures == w.breaker.failures + 1
      && after.breaker.mode == if w.breaker.failures + 1 >= limits.threshold then Open else HalfOpen
  {
    var called := Step(limits, w, Call(probe.at));
    StepConsistent(limits, w, Call(probe.at));
    assert w.next in called.running;
    StepConsistent(limits, called, Settled(w.next, probe.result, probe.end));
  }

  /**
   A late success that resets the counter of an open breaker costs more than one probe: the circuit opens again
   exactly when the failed probes make up for what was reset, and until then every probe is let through.
   */
  lemma {:induction false} FailedProbesReopen(limits: Limits, w: World, probes: seq<Whole>)
    requires OpenAndIdle(w) && FailInTime(limits, w.breaker.lastFailure, probes) && probes != []
    ensures var after := OneByOne(limits, w, probes);
      && Consistent(after) && !after.breaker.probing && after.running == {}
      && after.next == w.next + |probes| && after.breaker.failures == w.breaker.failures + |probes|
      && after.breaker.lastFailure == probes[|probes| - 1].end
      && after.breaker.mode == if w.breaker.failures + |probes| >= limits.threshold then Open else HalfOpen
  {
    var n := |probes| - 1;
    var front, last := probes[..n], w.breaker.lastFailure;
    assert probes[n].at - EndBefore(last, probes, n) >= limits.timeout;
    if n > 0 {
      forall i | 0 <= i < n ensures front[i] == probes[i] && EndBefore(last, front, i) == EndBefore(last, probes, i) {
      }
      FailedProbesReopen(limits, w, front);
    }
    ProbeFails(limits, OneByOne(limits, w, probes[..n]), probes[n]);
  }

  /** The counter can be reset while open: three overlapping calls, two failures and a late success. */
  lemma LateSuccessResetsOpenBreaker()
    ensures exists events :: var w := Run(Limits(2, 1000), START, events);
      w.breaker.mode == Open && w.running == {} && w.breaker.failures == 0
  {
    var limits := Limits(2, 1000);
    var w1 := Step(limits, START, Call(0));
    var w2 := Step(limits, w1, Call(0));
    var w3 := Step(limits, w2, Call(0));
    var w4 := Step(limits, w3, Settled(0, Failure, 1));
    var w5 := Step(limits, w4, Settled(1, Failure, 1));
    var w6 := Step(limits, w5, Settled(2, Success, 2));
    var events := [Call(0), Call(0), Call(0), Settled(0, Failure, 1), Settled(1, Failure, 1), Settled(2, Success, 2)];
    assert events[..5] == [Call(0), Call(0), Call(0), Settled(0, Failure, 1), Settled(1, Failure, 1)];
    assert events[..5][..4] == [Call(0), Call(0), Call(0), Settled(0, Failure, 1)];
    assert events[..5][..4][..3] == [Call(0), Call(0), Call(0)];
    assert [Call(0), Call(0), Call(0)][..2] == [Call(0), Call(0)];
    assert [Call(0), Call(0)][..1] == [Call(0)];
    assert Run(limits, START, [Call(0)]) == w1;
    assert Run(limits, START, [Call(0), Call(0)]) == w2;
    assert Run(limits, START, [Call(0), Call(0), Call(0)]) == w3;
    assert Run(limits, START, events[..5][..4]) == w4;
    assert Run(limits, START, events[..5]) == w5;
    assert Run(limits, START, events) == w6;
  }
}
