/**
 The sliding-window throttle in front of the Groq and the Gemini calls (src/scraper/llm-parser.js,
 src/scraper/gemini-parser.js): the same code with 25 and 12 calls per minute.
 */
module RateLimiter {
  const WINDOW: int := 60000
  const SLACK: int := 250

  /** What one synchronous attempt decides: the call may go out, or its caller sleeps and tries again. */
  datatype Outcome = Admitted | Wait(ms: int)

  /** Time stamps older than the cutoff leave the queue, from the front. */
  function Shifted(stamps: seq<int>, cutoff: int): seq<int> {
    if stamps == [] || stamps[0] >= cutoff then stamps else Shifted(stamps[1..], cutoff)
  }

  function Decide(limit: nat, stamps: seq<int>, now: int): (seq<int>, Outcome)
    requires limit > 0
  {
    var recent := Shifted(stamps, now - WINDOW);
    if |recent| >= limit then (recent, Wait(recent[0] + WINDOW - now + SLACK)) else (recent + [now], Admitted)
  }

  class Limiter {
    const limit: nat
    var stamps: seq<int>

    constructor (limit: nat)
      requires limit > 0
      ensures this.limit == limit && stamps == []
    {
      this.limit := limit;
      stamps := [];
    }

    /** The part of `_waitForRateLimit` that runs without interruption. */
    method Attempt(now: int) returns (outcome: Outcome)
      requires limit > 0
      modifies this
      ensures (stamps, outcome) == Decide(limit, old(stamps), now)
    {
      var cutoff := now - WINDOW;
      while |stamps| > 0 && stamps[0] < cutoff
        invariant Shifted(stamps, cutoff) == Shifted(old(stamps), cutoff)
        decreases |stamps|
      {
        stamps := stamps[1..];
      }
      if |stamps| >= limit {
        return Wait(stamps[0] + WINDOW - now + SLACK);
      }
      stamps := stamps + [now];
      return Admitted;
    }
  }

  // ---------------------------------------------------------------- whole histories

  /** The queue after some attempts, and every admission there ever was. */
  datatype Throttle = Throttle(stamps: seq<int>, history: seq<int>)

  /** Any number of callers, interleaved anyhow, are just a sequence of attempt times. */
  function After(limit: nat, nows: seq<int>): Throttle
    requires limit > 0
  {
    if nows == [] then Throttle([], [])
    else
      var before := After(limit, nows[..|nows| - 1]);
      var now := nows[|nows| - 1];
      var decision := Decide(limit, before.stamps, now);
      Throttle(decision.0, if decision.1.Admitted? then before.history + [now] else before.history)
  }

  predicate Monotone(times: seq<int>) {
    forall i, j :: 0 <= i <= j < |times| ==> times[i] <= times[j]
  }

  /** How many admissions lie in the closed interval. */
  function CountIn(history: seq<int>, from: int, to: int): nat {
    if history == [] then 0
    else CountIn(history[..|history| - 1], from, to) + (if from <= history[|history| - 1] <= to then 1 else 0)
  }

  lemma {:induction false} CountAppend(a: seq<int>, b: seq<int>, from: int, to: int)
    ensures CountIn(a + b, from, to) == CountIn(a, from, to) + CountIn(b, from, to)
  {
    if b == [] {
      assert a + b == a;
    } else {
      CountAppend(a, b[..|b| - 1], from, to);
      assert (a + b)[..|a + b| - 1] == a + b[..|b| - 1];
    }
  }

  predicate AllWithin(times: seq<int>, from: int, to: int) {
    forall i :: 0 <= i < |times| ==> from <= times[i] <= to
  }

  lemma {:induction false} CountBefore(history: seq<int>, from: int, to: int)
    requires forall i :: 0 <= i < |history| ==> history[i] < from
    ensures CountIn(history, from, to) == 0
  {
    if history != [] {
      var rest := history[..|history| - 1];
      CountBefore(rest, from, to);
    }
  }

  lemma {:induction false} CountEvery(history: seq<int>, from: int, to: int)
    requires AllWithin(history, from, to)
    ensures CountIn(history, from, to) == |history|
  {
    if history != [] {
      var rest := history[..|history| - 1];
      CountEvery(rest, from, to);
    }
  }

  /** Over a history that ends by `high`, an interval that starts later holds no more. */
  lemma {:induction false} CountNarrower(history: seq<int>, from: int, to: int, low: int, high: int)
    requires low <= from && forall i :: 0 <= i < |history| ==> history[i] <= high
    ensures CountIn(history, from, to) <= CountIn(history, low, high)
  {
    if history != [] {
      var rest := history[..|history| - 1];
      CountNarrower(rest, from, to, low, high);
    }
  }

  /** The queue is a full enough end of the history: whatever is gone is older than a window before `now`. */
  ghost predicate Remembers(limit: nat, throttle: Throttle, now: int) {
    var gone := |throttle.history| - |throttle.stamps|;
    && gone >= 0 && throttle.history[gone..] == throttle.stamps
    && |throttle.stamps| <= limit
    && Monotone(throttle.history)
    && (forall i :: 0 <= i < |throttle.history| ==> throttle.history[i] <= now)
    && (forall i :: 0 <= i < gone ==> throttle.history[i] < now - WINDOW)
  }

  lemma {:induction false} ShiftedSplit(stamps: seq<int>, cutoff: int)
    requires Monotone(stamps)
    ensures var recent := Shifted(stamps, cutoff); var gone := |stamps| - |recent|;
      && gone >= 0 && recent == stamps[gone..]
      && (forall i :: 0 <= i < gone ==> stamps[i] < cutoff)
      && (forall i :: gone <= i < |stamps| ==> stamps[i] >= cutoff)
  {
    if stamps != [] && stamps[0] < cutoff { ShiftedSplit(stamps[1..], cutoff); }
  }

  lemma TailIsMonotone(times: seq<int>, start: nat)
    requires Monotone(times) && start <= |times|
    ensures Monotone(times[start..])
  {
    var tail := times[start..];
    forall i, j | 0 <= i <= j < |tail| ensures tail[i] <= tail[j] {
      assert times[start + i] <= times[start + j];
    }
  }

  /** Shifting splits the history at the cutoff. */
  lemma ShiftedHistory(limit: nat, throttle: Throttle, earlier: int, now: int)
    requires Remembers(limit, throttle, earlier) && earlier <= now
    ensures var history, recent := throttle.history, Shifted(throttle.stamps, now - WINDOW);
      var gone := |history| - |recent|;
      && gone >= 0 && history[gone..] == recent && |recent| <= |throttle.stamps|
      && (forall i :: 0 <= i < gone ==> history[i] < now - WINDOW)
      && AllWithin(recent, now - WINDOW, now)
  {
    var history, stamps := throttle.history, throttle.stamps;
    var first := |history| - |stamps|;
    TailIsMonotone(history, first);
    ShiftedSplit(stamps, now - WINDOW);
    forall i | first <= i < |history| ensures history[i] == stamps[i - first] {
    }
  }

  /** Shifting forgets only admissions that are out of the window. */
  lemma ShiftRemembers(limit: nat, throttle: Throttle, earlier: int, now: int)
    requires Remembers(limit, throttle, earlier) && earlier <= now
    ensures Remembers(limit, Throttle(Shifted(throttle.stamps, now - WINDOW), throttle.history), now)
  {
    ShiftedHistory(limit, throttle, earlier, now);
  }

  lemma SplitCounts(older: seq<int>, recent: seq<int>, from: int, to: int)
    requires (forall i :: 0 <= i < |older| ==> older[i] < from) && AllWithin(recent, from, to)
    ensures CountIn(older + recent, from, to) == |recent|
  {
    CountBefore(older, from, to);
    CountEvery(recent, from, to);
    CountAppend(older, recent, from, to);
  }

  /** What stays in the queue is what the window holds. */
  lemma ShiftedCounts(limit: nat, throttle: Throttle, earlier: int, now: int)
    requires Remembers(limit, throttle, earlier) && earlier <= now
    ensures |Shifted(throttle.stamps, now - WINDOW)| == CountIn(throttle.history, now - WINDOW, now)
  {
    ShiftedHistory(limit, throttle, earlier, now);
    var history, recent := throttle.history, Shifted(throttle.stamps, now - WINDOW);
    var older := history[..|history| - |recent|];
    SplitCounts(older, recent, now - WINDOW, now);
    assert history == older + recent;
  }

  /** An admission is remembered. */
  lemma PushRemembers(limit: nat, throttle: Throttle, now: int)
    requires Remembers(limit, throttle, now) && |throttle.stamps| < limit
    ensures Remembers(limit, Throttle(throttle.stamps + [now], throttle.history + [now]), now)
  {
    var gone := |throttle.history| - |throttle.stamps|;
    assert (throttle.history + [now])[gone..] == throttle.history[gone..] + [now];
  }

  /** A later observer remembers no less. */
  lemma {:induction false} AfterRemembers(limit: nat, nows: seq<int>, now: int)
    requires limit > 0 && Monotone(nows) && forall i :: 0 <= i < |nows| ==> nows[i] <= now
    ensures Remembers(limit, After(limit, nows), now)
  {
    if nows != [] {
      var earlier, last := nows[..|nows| - 1], nows[|nows| - 1];
      AfterRemembers(limit, earlier, last);
      var before := After(limit, earlier);
      ShiftRemembers(limit, before, last, last);
      var shifted := Throttle(Shifted(before.stamps, last - WINDOW), before.history);
      if |shifted.stamps| < limit { PushRemembers(limit, shifted, last); }
    }
  }

  /**
   The queue of time stamps refines the obvious limiter that keeps every admission for ever: a call is
   admitted exactly when fewer than `limit` admissions lie in the closed minute that ends now.
   */
  lemma AdmitsExactlyWhenThereIsRoom(limit: nat, nows: seq<int>, now: int)
    requires limit > 0 && Monotone(nows + [now])
    ensures var throttle := After(limit, nows);
      Decide(limit, throttle.stamps, now).1.Admitted? <==> CountIn(throttle.history, now - 60_000, now) < limit
  {
    AttemptTimes(nows, now);
    AfterRemembers(limit, nows, now);
    ShiftedCounts(limit, After(limit, nows), now, now);
  }

  lemma AttemptTimes(nows: seq<int>, now: int)
    requires Monotone(nows + [now])
    ensures Monotone(nows) && forall i :: 0 <= i < |nows| ==> nows[i] <= now
  {
    var all := nows + [now];
    forall i, j | 0 <= i <= j < |nows| ensures nows[i] <= nows[j] && nows[j] <= now {
      assert all[i] <= all[j] <= all[|nows|];
    }
  }

  /** One more admission, made where a window that ends at it has room, fits every window it falls in. */
  lemma AdmissionFits(limit: nat, history: seq<int>, now: int, from: int)
    requires forall i :: 0 <= i < |history| ==> history[i] <= now
    requires CountIn(history, now - WINDOW, now) < limit && from <= now <= from + WINDOW
    ensures CountIn(history + [now], from, from + WINDOW) <= limit
  {
    CountNarrower(history, from, from + WINDOW, now - WINDOW, now);
    assert (history + [now])[..|history|] == history;
  }

  /** No closed minute of the whole history, forgotten admissions included, holds more than `limit` calls. */
  lemma {:induction false} RateBound(limit: nat, nows: seq<int>, from: int)
    requires limit > 0 && Monotone(nows)
    ensures CountIn(After(limit, nows).history, from, from + 60_000) <= limit
  {
    if nows != [] {
      var earlier, now := nows[..|nows| - 1], nows[|nows| - 1];
      RateBound(limit, earlier, from);
      var history := After(limit, earlier).history;
      if from <= now <= from + WINDOW {
        assert earlier + [now] == nows;
        AdmitsExactlyWhenThereIsRoom(limit, earlier, now);
        AfterRemembers(limit, earlier, now);
        if CountIn(history, now - WINDOW, now) < limit { AdmissionFits(limit, history, now, from); }
      } else {
        assert (history + [now])[..|history|] == history;
      }
    }
  }

  /** A refused caller sleeps between a quarter of a second and a minute and a quarter second. */
  lemma WaitsAreBounded(limit: nat, nows: seq<int>, now: int)
    requires limit > 0 && Monotone(nows + [now])
    ensures var outcome := Decide(limit, After(limit, nows).stamps, now).1;
      outcome.Wait? ==> 250 <= outcome.ms <= 60_250
  {
    AttemptTimes(nows, now);
    AfterRemembers(limit, nows, now);
    ShiftedHistory(limit, After(limit, nows), now, now);
  }

  /**
   A refused caller that nobody overtakes is admitted at its next attempt exactly when it slept longer
   than the computed wait without its slack; so one wait is enough, even with a timer a little early.
   */
  lemma OneWaitIsEnough(limit: nat, nows: seq<int>, now: int, again: int)
    requires limit > 0 && Monotone(nows + [now]) && now <= again
    requires Decide(limit, After(limit, nows).stamps, now).1.Wait?
    ensures var (queue, outcome) := Decide(limit, After(limit, nows).stamps, now);
      Decide(limit, queue, again).1.Admitted? <==> again - now > outcome.ms - 250
  {
    AttemptTimes(nows, now);
    AfterRemembers(limit, nows, now);
    var throttle := After(limit, nows);
    ShiftedHistory(limit, throttle, now, now);
    var queue := Shifted(throttle.stamps, now - WINDOW);
    TailIsMonotone(throttle.history, |throttle.history| - |queue|);
    ShiftedSplit(queue, again - WINDOW);
  }

  /** The history has every admitted attempt, in order, and no refused one. */
  lemma HistoryIsTheAdmitted(limit: nat, nows: seq<int>, now: int)
    requires limit > 0
    ensures var before := After(limit, nows);
      After(limit, nows + [now]).history ==
        if Decide(limit, before.stamps, now).1.Admitted? then before.history + [now] else before.history
  {
    assert (nows + [now])[..|nows|] == nows;
  }

  /** How many positions of the history lie in the interval. */
  lemma {:induction false} CountInCounts(history: seq<int>, from: int, to: int)
    ensures CountIn(history, from, to) == |set i | 0 <= i < |history| && from <= history[i] <= to|
  {
    if history != [] {
      var last := |history| - 1;
      var front := history[..last];
      CountInCounts(front, from, to);
      var within := set i | 0 <= i < |history| && from <= history[i] <= to;
      var before := set i | 0 <= i < |front| && from <= front[i] <= to;
      assert within == if from <= history[last] <= to then before + {last} else before;
    }
  }
}
