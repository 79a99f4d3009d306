/**
 What a bridge process does with a command before it dispatches it (src/scraper/whatsapp-qr-bridge.js):
 a fence against commands meant for an earlier incarnation, and the removal of double deliveries.
 */
module BridgeFence {
  import opened Values
  import opened CommandChannel

  const STALE_SKEW: int := 2000
  const DEDUPE: int := 5000

  /** The dedupe key: the name and the time stamp, where zero counts as none. */
  datatype Signature = Signature(name: string, ts: Option<int>)

  function SignatureOf(cmd: Cmd): Signature {
    Signature(cmd.name, if cmd.ts == Some(0) then None else cmd.ts)
  }

  /** Commands are alike when their names and time stamps are; zero is no time stamp. */
  lemma AlikeMeans(a: Cmd, b: Cmd)
    ensures SignatureOf(a) == SignatureOf(b) <==>
      a.name == b.name && (a.ts == b.ts || (a.ts.GetOr(0) == 0 && b.ts.GetOr(0) == 0))
  {
  }

  predicate Stale(boot: int, cmd: Cmd) {
    cmd.ts.Some? && cmd.ts.value < boot - STALE_SKEW
  }

  /** A command that went on to `dispatchCmd`, and when. */
  datatype Dispatch = Dispatch(cmd: Cmd, at: int)

  function Purged(seen: map<Signature, int>, now: int): map<Signature, int> {
    map k | k in seen && now - seen[k] <= DEDUPE :: seen[k]
  }

  predicate Dispatches(boot: int, seen: map<Signature, int>, cmd: Cmd, now: int) {
    !Stale(boot, cmd) && SignatureOf(cmd) !in Purged(seen, now)
  }

  function SeenAfter(boot: int, seen: map<Signature, int>, cmd: Cmd, now: int): map<Signature, int> {
    if Stale(boot, cmd) then seen
    else if SignatureOf(cmd) in Purged(seen, now) then Purged(seen, now)
    else Purged(seen, now)[SignatureOf(cmd) := now]
  }

  class Bridge {
    const boot: int
    var seen: map<Signature, int>

    constructor (boot: int)
      ensures this.boot == boot && seen == map[]
    {
      this.boot := boot;
      seen := map[];
    }

    /** `handleCmd`, up to whether it dispatches. */
    method HandleCmd(cmd: Cmd, now: int) returns (dispatched: bool)
      modifies this
      ensures dispatched == Dispatches(boot, old(seen), cmd, now)
      ensures seen == SeenAfter(boot, old(seen), cmd, now)
    {
      if cmd.ts.Some? && cmd.ts.value < boot - STALE_SKEW {
        return false;
      }
      var keys := seen.Keys;
      while keys != {}
        invariant keys <= seen.Keys <= old(seen).Keys
        invariant forall k :: k in seen ==> seen[k] == old(seen)[k]
        invariant forall k :: k in old(seen) && k !in keys ==> (k in seen <==> now - old(seen)[k] <= DEDUPE)
        invariant forall k :: k in keys ==> k in seen
        decreases |keys|
      {
        var k :| k in keys;
        if now - seen[k] > DEDUPE {
          seen := seen - {k};
        }
        keys := keys - {k};
      }
      assert seen == Purged(old(seen), now);
      var signature := SignatureOf(cmd);
      if signature in seen {
        return false;
      }
      seen := seen[signature := now];
      return true;
    }
  }

  // ---------------------------------------------------------------- whole histories

  /** The bridge's memory and everything it ever dispatched. */
  datatype Fence = Fence(seen: map<Signature, int>, log: seq<Dispatch>)

  function After(boot: int, calls: seq<Dispatch>): Fence {
    if calls == [] then Fence(map[], [])
    else
      var before, call := After(boot, calls[..|calls| - 1]), calls[|calls| - 1];
      Fence(SeenAfter(boot, before.seen, call.cmd, call.at),
            if Dispatches(boot, before.seen, call.cmd, call.at) then before.log + [call] else before.log)
  }

  ghost predicate Monotone(calls: seq<Dispatch>) {
    forall i, j :: 0 <= i <= j < |calls| ==> calls[i].at <= calls[j].at
  }

  /** When this signature was last dispatched. */
  function Last(log: seq<Dispatch>, signature: Signature): Option<int> {
    if log == [] then None
    else if SignatureOf(log[|log| - 1].cmd) == signature then Some(log[|log| - 1].at)
    else Last(log[..|log| - 1], signature)
  }

  /** The memory holds the last dispatch of every signature that was dispatched within the dedupe window. */
  ghost predicate Remembers(fence: Fence, now: int) {
    forall s :: if s in fence.seen then Last(fence.log, s) == Some(fence.seen[s])
                else Last(fence.log, s).Some? ==> now - Last(fence.log, s).value > DEDUPE
  }

  lemma CallRemembers(boot: int, fence: Fence, earlier: int, call: Dispatch)
    requires Remembers(fence, earlier) && earlier <= call.at
    ensures Dispatches(boot, fence.seen, call.cmd, call.at) ==>
      Remembers(Fence(SeenAfter(boot, fence.seen, call.cmd, call.at), fence.log + [call]), call.at)
    ensures !Dispatches(boot, fence.seen, call.cmd, call.at) ==>
      Remembers(Fence(SeenAfter(boot, fence.seen, call.cmd, call.at), fence.log), call.at)
  {
    assert (fence.log + [call])[..|fence.log|] == fence.log;
  }

  lemma {:induction false} AfterRemembers(boot: int, calls: seq<Dispatch>, now: int)
    requires Monotone(calls) && forall i :: 0 <= i < |calls| ==> calls[i].at <= now
    ensures Remembers(After(boot, calls), now)
  {
    if calls != [] {
      var earlier, call := calls[..|calls| - 1], calls[|calls| - 1];
      AfterRemembers(boot, earlier, call.at);
      CallRemembers(boot, After(boot, earlier), call.at, call);
    }
  }

  /**
   The purged map refines the obvious rule over the whole history: a command is dispatched exactly when it
   is not stale and its signature was not dispatched in the last five seconds.
   */
  lemma DispatchedExactlyWhenFresh(boot: int, calls: seq<Dispatch>, call: Dispatch)
    requires Monotone(calls + [call])
    ensures var fence := After(boot, calls); var last := Last(fence.log, SignatureOf(call.cmd));
      Dispatches(boot, fence.seen, call.cmd, call.at) <==>
      && (call.cmd.ts.Some? ==> call.cmd.ts.value >= boot - 2000)
      && (last.Some? ==> call.at - last.value > 5000)
  {
    CallTimes(calls, call);
    AfterRemembers(boot, calls, call.at);
  }

  lemma CallTimes(calls: seq<Dispatch>, call: Dispatch)
    requires Monotone(calls + [call])
    ensures Monotone(calls) && forall i :: 0 <= i < |calls| ==> calls[i].at <= call.at
  {
    var all := calls + [call];
    forall i, j | 0 <= i <= j < |calls| ensures calls[i].at <= calls[j].at && calls[j].at <= call.at {
      assert all[i].at <= all[j].at <= all[|calls|].at;
    }
  }

  /** A dispatch lies no later than the last dispatch of its signature. */
  lemma {:induction false} LastIsLatest(log: seq<Dispatch>, i: nat)
    requires i < |log| && forall a, b :: 0 <= a <= b < |log| ==> log[a].at <= log[b].at
    ensures var last := Last(log, SignatureOf(log[i].cmd)); last.Some? && log[i].at <= last.value
  {
    var end := |log| - 1;
    if SignatureOf(log[end].cmd) != SignatureOf(log[i].cmd) {
      LastIsLatest(log[..end], i);
    }
  }

  /** What was dispatched is in order, was never stale, and repeats a signature only after five seconds. */
  ghost predicate Spaced(boot: int, log: seq<Dispatch>) {
    && (forall i :: 0 <= i < |log| && log[i].cmd.ts.Some? ==> log[i].cmd.ts.value >= boot - 2000)
    && (forall i, j :: 0 <= i <= j < |log| ==> log[i].at <= log[j].at)
    && (forall i, j :: 0 <= i < j < |log| && SignatureOf(log[i].cmd) == SignatureOf(log[j].cmd) ==>
          log[j].at - log[i].at > 5000)
  }

  lemma OneMoreSpaced(boot: int, log: seq<Dispatch>, call: Dispatch)
    requires Spaced(boot, log) && !Stale(boot, call.cmd)
    requires forall i :: 0 <= i < |log| ==> log[i].at <= call.at
    requires var last := Last(log, SignatureOf(call.cmd)); last.Some? ==> call.at - last.value > DEDUPE
    ensures Spaced(boot, log + [call])
  {
    forall i | 0 <= i < |log| && SignatureOf(log[i].cmd) == SignatureOf(call.cmd)
      ensures call.at - log[i].at > DEDUPE
    {
      LastIsLatest(log, i);
    }
  }

  /** Nothing was dispatched after this moment. */
  ghost predicate By(log: seq<Dispatch>, now: int) {
    forall i :: 0 <= i < |log| ==> log[i].at <= now
  }

  /**
   Over any history with a clock that does not run back: no dispatched command with a time stamp is older
   than two seconds before the boot, and two dispatches of one signature are more than five seconds apart.
   */
  lemma {:induction false} DispatchesAreSpaced(boot: int, calls: seq<Dispatch>, now: int)
    requires Monotone(calls) && By(calls, now)
    ensures Spaced(boot, After(boot, calls).log) && By(After(boot, calls).log, now)
  {
    if calls != [] {
      var earlier, call := calls[..|calls| - 1], calls[|calls| - 1];
      DispatchesAreSpaced(boot, earlier, call.at);
      var fence := After(boot, earlier);
      if Dispatches(boot, fence.seen, call.cmd, call.at) {
        assert earlier + [call] == calls;
        DispatchedExactlyWhenFresh(boot, earlier, call);
        OneMoreSpaced(boot, fence.log, call);
      }
    }
  }

  /** When the signature was last dispatched is when the latest command with it was. */
  lemma {:induction false} LastIsOfTheLatest(log: seq<Dispatch>, signature: Signature)
    ensures Last(log, signature) == None <==> forall i :: 0 <= i < |log| ==> SignatureOf(log[i].cmd) != signature
    ensures Last(log, signature).Some? ==>
      exists i :: 0 <= i < |log| && SignatureOf(log[i].cmd) == signature && Last(log, signature) == Some(log[i].at)
        && forall j :: i < j < |log| ==> SignatureOf(log[j].cmd) != signature
  {
    if log != [] && SignatureOf(log[|log| - 1].cmd) != signature {
      var front := log[..|log| - 1];
      LastIsOfTheLatest(front, signature);
      assert forall i :: 0 <= i < |front| ==> front[i] == log[i];
      if Last(log, signature).Some? {
        var i :| 0 <= i < |front| && SignatureOf(front[i].cmd) == signature
          && Last(front, signature) == Some(front[i].at)
          && forall j :: i < j < |front| ==> SignatureOf(front[j].cmd) != signature;
        assert SignatureOf(log[i].cmd) == signature && Last(log, signature) == Some(log[i].at);
      }
    }
  }
}
