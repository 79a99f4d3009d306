/**
 The page lock of a bridge (src/scraper/whatsapp-qr-bridge.js): a promise chain that serialises every
 sequence of calls on the one Chromium page. The steps of the promises are the events of a state machine.
 */
module PageLock {
  /** How a locked callback ended. */
  datatype Outcome = Returned(stored: nat) | Threw(error: int)

  /**
   One `withPageLock` call: its callback waits for the chain, runs, has settled (which is what its own caller
   sees), and finally the chain promise behind it, which swallows the outcome, has resolved.
   */
  datatype Phase = Waiting | Running | Settled(outcome: Outcome) | Released(outcome: Outcome)

  /** The calls in the order they were made, and the order in which callbacks were started. */
  datatype Lock = Lock(calls: seq<Phase>, started: seq<nat>)

  datatype Event = Call | Start(i: nat) | Settle(i: nat, outcome: Outcome) | Release(i: nat)

  const FREE := Lock([], [])

  predicate Enabled(lock: Lock, e: Event) {
    match e
    case Call => true
    case Start(i) => i < |lock.calls| && lock.calls[i].Waiting? && (i > 0 ==> lock.calls[i - 1].Released?)
    case Settle(i, _) => i < |lock.calls| && lock.calls[i].Running?
    case Release(i) => i < |lock.calls| && lock.calls[i].Settled?
  }

  function Step(lock: Lock, e: Event): Lock {
    if !Enabled(lock, e) then lock
    else
      match e
      case Call => lock.(calls := lock.calls + [Waiting])
      case Start(i) => Lock(lock.calls[i := Running], lock.started + [i])
      case Settle(i, outcome) => lock.(calls := lock.calls[i := Phase.Settled(outcome)])
      case Release(i) => lock.(calls := lock.calls[i := Released(lock.calls[i].outcome)])
  }

  function Run(events: seq<Event>): Lock {
    if events == [] then FREE else Step(Run(events[..|events| - 1]), events[|events| - 1])
  }

  /** A callback that has started has the whole chain before it behind it. */
  ghost predicate InOrder(lock: Lock) {
    && (forall i, j :: 0 <= i < j < |lock.calls| && !lock.calls[j].Waiting? ==> lock.calls[i].Released?)
    && |lock.started| <= |lock.calls|
    && (forall i :: 0 <= i < |lock.started| ==> lock.started[i] == i)
    && (forall i :: 0 <= i < |lock.calls| ==> (lock.calls[i].Waiting? <==> i >= |lock.started|))
  }

  lemma StepInOrder(lock: Lock, e: Event)
    requires InOrder(lock)
    ensures InOrder(Step(lock, e))
  {
    if Enabled(lock, e) && e.Start? {
      assert e.i > 0 ==> !lock.calls[e.i - 1].Waiting?;
      assert e.i == |lock.started|;
    }
  }

  lemma {:induction false} RunInOrder(events: seq<Event>)
    ensures InOrder(Run(events))
  {
    if events != [] {
      RunInOrder(events[..|events| - 1]);
      StepInOrder(Run(events[..|events| - 1]), events[|events| - 1]);
    }
  }

  /** At most one callback runs, and callbacks start in the order of the calls, whichever of them throw. */
  lemma OneAtATimeInCallOrder(events: seq<Event>)
    ensures var lock := Run(events);
      && (forall i, j ::
            0 <= i < |lock.calls| && 0 <= j < |lock.calls| && lock.calls[i].Running? && lock.calls[j].Running? ==>
              i == j)
      && (forall k :: 0 <= k < |lock.started| ==> lock.started[k] == k)
  {
    RunInOrder(events);
  }

  /** What a caller sees is what its own callback did: an error reaches nobody else. */
  lemma {:induction false} OutcomeIsOwn(events: seq<Event>, i: nat)
    requires var lock := Run(events); i < |lock.calls| && (lock.calls[i].Settled? || lock.calls[i].Released?)
    ensures Settle(i, Run(events).calls[i].outcome) in events
  {
    var last := |events| - 1;
    var before, e := Run(events[..last]), events[last];
    if i < |before.calls| && (before.calls[i].Settled? || before.calls[i].Released?) {
      OutcomeIsOwn(events[..last], i);
      assert Settle(i, before.calls[i].outcome) in events[..last];
    } else {
      assert e == Settle(i, Run(events).calls[i].outcome);
    }
  }

  /** The steps that are left until every call made so far is through. */
  function Work(calls: seq<Phase>): nat {
    if calls == [] then 0
    else
      Work(calls[..|calls| - 1])
      + (match calls[|calls| - 1] case Waiting => 3 case Running => 2 case Settled(_) => 1 case Released(_) => 0)
  }

  lemma {:induction false} WorkAfterUpdate(calls: seq<Phase>, i: nat, phase: Phase)
    requires i < |calls|
    ensures Work(calls[i := phase]) == Work(calls) - Work([calls[i]]) + Work([phase])
  {
    var last := |calls| - 1;
    if i == last {
      assert calls[i := phase][..last] == calls[..last];
    } else {
      WorkAfterUpdate(calls[..last], i, phase);
      assert calls[i := phase][..last] == calls[..last][i := phase];
    }
  }

  /** Every step but a new call brings the end one step nearer, a throw no less than a return. */
  lemma StepsDoWork(lock: Lock, e: Event)
    requires Enabled(lock, e)
    ensures Work(Step(lock, e).calls) == Work(lock.calls) + (if e.Call? then 3 else -1)
  {
    match e
    case Call => assert (lock.calls + [Waiting])[..|lock.calls|] == lock.calls;
    case Start(i) => WorkAfterUpdate(lock.calls, i, Running);
    case Settle(i, outcome) => WorkAfterUpdate(lock.calls, i, Phase.Settled(outcome));
    case Release(i) => WorkAfterUpdate(lock.calls, i, Released(lock.calls[i].outcome));
  }

  lemma {:induction false} NoWorkMeansAllReleased(calls: seq<Phase>)
    ensures Work(calls) == 0 <==> forall i :: 0 <= i < |calls| ==> calls[i].Released?
  {
    if calls != [] {
      var last := |calls| - 1;
      NoWorkMeansAllReleased(calls[..last]);
      assert forall i :: 0 <= i < last ==> calls[..last][i] == calls[i];
    }
  }

  /** The chain never jams: while a call is not through, its turn can come, or a callback is running. */
  lemma NeverStuck(events: seq<Event>)
    requires Work(Run(events).calls) > 0
    ensures var lock := Run(events);
      || (exists i :: Enabled(lock, Start(i)))
      || (exists i :: Enabled(lock, Release(i)))
      || (exists i :: 0 <= i < |lock.calls| && lock.calls[i].Running?)
  {
    var lock := Run(events);
    RunInOrder(events);
    NoWorkMeansAllReleased(lock.calls);
    var n := |lock.started|;
    var i :| 0 <= i < |lock.calls| && !lock.calls[i].Released?;
    if i < n {
      if lock.calls[i].Settled? { assert Enabled(lock, Release(i)); }
    } else if n > 0 && lock.calls[n - 1].Settled? {
      assert Enabled(lock, Release(n - 1));
    } else if n == 0 || lock.calls[n - 1].Released? {
      assert Enabled(lock, Start(n));
    }
  }
}

/** Backfill batches over the monitored groups, guarded by the in-flight flag, each harvest under the page lock. */
module BackfillBatch {
  import opened PageLock

  type Row = nat

  /** One harvested group and how many messages it stored. */
  datatype Harvested = Harvested(row: Row, stored: nat)

  datatype Ending = Complete | Error | ClientGone

  datatype Progress =
    | Loading
    | Pass(todo: seq<Row>, asked: bool, lockCall: nat)
    | Sleeping
    | Finished(ending: Ending)

  /** One `runBackfillBatch`: the groups it loaded, and what each of its passes has harvested. */
  datatype Batch = Batch(progress: Progress, rows: seq<Row>, first: seq<Harvested>, retried: bool,
                         second: seq<Harvested>)

  datatype Bridge = Bridge(lock: Lock, inFlight: bool, batches: seq<Batch>)

  datatype Event =
    | OnLock(event: PageLock.Event)
    | Request
    | Loaded(rows: seq<Row>)
    | LoadFails
    | AskForLock
    | Resume
    | PassEnds
    | Wake(clientAlive: bool)

  const IDLE := Bridge(FREE, false, [])

  /** The groups of a pass that stored nothing. */
  function Empty(pass: seq<Harvested>): seq<Row> {
    if pass == [] then []
    else Empty(pass[..|pass| - 1]) + (if pass[|pass| - 1].stored == 0 then [pass[|pass| - 1].row] else [])
  }

  function RowsOf(pass: seq<Harvested>): seq<Row> {
    seq(|pass|, i requires 0 <= i < |pass| => pass[i].row)
  }

  predicate Active(batch: Batch) {
    !batch.progress.Finished?
  }

  /** The batch whose code is to run next: the last one requested. */
  predicate HasActive(b: Bridge) {
    b.batches != [] && Active(b.batches[|b.batches| - 1])
  }

  function Current(b: Bridge): Batch
    requires b.batches != []
  {
    b.batches[|b.batches| - 1]
  }

  function WithCurrent(b: Bridge, batch: Batch): Bridge
    requires b.batches != []
  {
    b.(batches := b.batches[|b.batches| - 1 := batch])
  }

  /** The `finally` of the batch. */
  function Finish(b: Bridge, batch: Batch, ending: Ending): Bridge
    requires b.batches != []
  {
    WithCurrent(b, batch.(progress := Finished(ending))).(inFlight := false)
  }

  function AfterHarvest(batch: Batch, stored: nat): Batch
    requires batch.progress.Pass? && batch.progress.todo != []
  {
    var done := Harvested(batch.progress.todo[0], stored);
    var next := batch.(progress := Pass(batch.progress.todo[1..], false, 0));
    if batch.retried then next.(second := batch.second + [done]) else next.(first := batch.first + [done])
  }

  function OnResume(b: Bridge, batch: Batch): Bridge
    requires b.batches != [] && batch.progress.Pass?
  {
    if batch.progress.asked && batch.progress.lockCall < |b.lock.calls| && batch.progress.todo != [] then
      match b.lock.calls[batch.progress.lockCall]
      case Settled(Returned(n)) => WithCurrent(b, AfterHarvest(batch, n))
      case Released(Returned(n)) => WithCurrent(b, AfterHarvest(batch, n))
      case Settled(Threw(_)) => Finish(b, batch, Error)
      case Released(Threw(_)) => Finish(b, batch, Error)
      case _ => b
    else b
  }

  function OnPassEnds(b: Bridge, batch: Batch): Bridge
    requires b.batches != [] && batch.progress.Pass?
  {
    if batch.progress.todo != [] then b
    else if !batch.retried && Empty(batch.first) != [] then WithCurrent(b, batch.(progress := Sleeping))
    else Finish(b, batch, Complete)
  }

  /** A step of the batch that is under way. */
  function OnBatch(b: Bridge, e: Event): Bridge
    requires b.batches != []
  {
    var batch := Current(b);
    match batch.progress
    case Loading =>
      if e.Loaded? then WithCurrent(b, batch.(progress := Pass(e.rows, false, 0), rows := e.rows))
      else if e.LoadFails? then Finish(b, batch, Error)
      else b
    case Pass(todo, asked, _) =>
      if e.AskForLock? && !asked && todo != [] then
        WithCurrent(b, batch.(progress := Pass(todo, true, |b.lock.calls|))).(lock := PageLock.Step(b.lock, Call))
      else if e.Resume? then OnResume(b, batch)
      else if e.PassEnds? then OnPassEnds(b, batch)
      else b
    case Sleeping =>
      if !e.Wake? then b
      else if !e.clientAlive then Finish(b, batch, ClientGone)
      else WithCurrent(b, batch.(progress := Pass(Empty(batch.first), false, 0), retried := true))
    case Finished(_) => b
  }

  function Step(b: Bridge, e: Event): Bridge {
    match e
    case OnLock(event) => b.(lock := PageLock.Step(b.lock, event))
    case Request =>
      if b.inFlight then b else b.(inFlight := true, batches := b.batches + [Batch(Loading, [], [], false, [])])
    case _ => if b.batches == [] then b else OnBatch(b, e)
  }

  function Run(events: seq<Event>): Bridge {
    if events == [] then IDLE else Step(Run(events[..|events| - 1]), events[|events| - 1])
  }

  /** Where a batch stands: the first pass goes through the rows in order, the second through the empty ones. */
  ghost predicate Faithful(batch: Batch) {
    match batch.progress
    case Loading => batch.first == [] && batch.second == [] && !batch.retried
    case Pass(todo, _, _) =>
      if batch.retried then RowsOf(batch.first) == batch.rows && RowsOf(batch.second) + todo == Empty(batch.first)
      else RowsOf(batch.first) + todo == batch.rows && batch.second == []
    case Sleeping => RowsOf(batch.first) == batch.rows && batch.second == [] && !batch.retried
    case Finished(Complete) =>
      RowsOf(batch.first) == batch.rows && RowsOf(batch.second) == Empty(batch.first)
    case Finished(_) => RowsOf(batch.first) <= batch.rows && RowsOf(batch.second) <= Empty(batch.first)
  }

  ghost predicate Inv(b: Bridge) {
    && (b.inFlight <==> HasActive(b))
    && (forall k :: 0 <= k < |b.batches| - 1 ==> !Active(b.batches[k]))
    && (forall k :: 0 <= k < |b.batches| ==> Faithful(b.batches[k]))
    && InOrder(b.lock)
  }

  lemma HarvestFaithful(batch: Batch, stored: nat)
    requires Faithful(batch) && batch.progress.Pass? && batch.progress.todo != []
    ensures Faithful(AfterHarvest(batch, stored))
  {
    var todo := batch.progress.todo;
    var done := Harvested(todo[0], stored);
    assert todo == [todo[0]] + todo[1..];
    if batch.retried {
      assert RowsOf(batch.second + [done]) == RowsOf(batch.second) + [todo[0]];
    } else {
      assert RowsOf(batch.first + [done]) == RowsOf(batch.first) + [todo[0]];
    }
  }

  /** A batch that stops early has harvested a beginning of what it had to. */
  lemma StoppedFaithful(batch: Batch, ending: Ending)
    requires Faithful(batch) && Active(batch) && ending != Complete
    ensures Faithful(batch.(progress := Finished(ending)))
  {
    assert RowsOf([]) == [];
  }

  lemma ReplaceCurrent(b: Bridge, batch: Batch)
    requires Inv(b) && HasActive(b) && Faithful(batch)
    ensures Active(batch) ==> Inv(WithCurrent(b, batch))
    ensures !Active(batch) ==> Inv(WithCurrent(b, batch).(inFlight := false))
  {
  }

  lemma BatchStepKeeps(b: Bridge, e: Event)
    requires Inv(b) && HasActive(b)
    ensures Inv(OnBatch(b, e))
  {
    var batch := Current(b);
    forall ending | ending != Complete ensures Inv(Finish(b, batch, ending)) {
      StoppedFaithful(batch, ending);
      ReplaceCurrent(b, batch.(progress := Finished(ending)));
    }
    match batch.progress
    case Loading =>
      if e.Loaded? {
        assert RowsOf([]) + e.rows == e.rows;
        ReplaceCurrent(b, batch.(progress := Pass(e.rows, false, 0), rows := e.rows));
      }
    case Pass(todo, asked, call) =>
      if e.AskForLock? && !asked && todo != [] {
        ReplaceCurrent(b, batch.(progress := Pass(todo, true, |b.lock.calls|)));
        StepInOrder(b.lock, Call);
      } else if e.Resume? && todo != [] {
        forall n ensures Inv(WithCurrent(b, AfterHarvest(batch, n))) {
          HarvestFaithful(batch, n);
          ReplaceCurrent(b, AfterHarvest(batch, n));
        }
      } else if e.PassEnds? && todo == [] {
        PassEndsKeeps(b, batch);
      }
    case Sleeping =>
      assert RowsOf([]) + Empty(batch.first) == Empty(batch.first);
      ReplaceCurrent(b, batch.(progress := Pass(Empty(batch.first), false, 0), retried := true));
  }

  lemma PassEndsKeeps(b: Bridge, batch: Batch)
    requires Inv(b) && HasActive(b) && batch == Current(b) && batch.progress.Pass? && batch.progress.todo == []
    ensures Inv(OnPassEnds(b, batch))
  {
    assert RowsOf([]) == [];
    assert RowsOf(batch.first) + [] == RowsOf(batch.first) && RowsOf(batch.second) + [] == RowsOf(batch.second);
    if !batch.retried && Empty(batch.first) != [] {
      ReplaceCurrent(b, batch.(progress := Sleeping));
    } else {
      ReplaceCurrent(b, batch.(progress := Finished(Complete)));
    }
  }

  lemma {:induction false} RunKeeps(events: seq<Event>)
    ensures Inv(Run(events))
  {
    if events != [] {
      RunKeeps(events[..|events| - 1]);
      var b, e := Run(events[..|events| - 1]), events[|events| - 1];
      match e
      case OnLock(event) => StepInOrder(b.lock, event);
      case Request =>
      case _ => if HasActive(b) { BatchStepKeeps(b, e); }
    }
  }

  /** Over every run: the flag says exactly whether a batch is under way, and there is never a second one. */
  lemma AtMostOneBatch(events: seq<Event>)
    ensures var b := Run(events);
      && (b.inFlight <==> exists k :: 0 <= k < |b.batches| && Active(b.batches[k]))
      && (forall j, k ::
            0 <= j < |b.batches| && 0 <= k < |b.batches| && Active(b.batches[j]) && Active(b.batches[k]) ==> j == k)
  {
    RunKeeps(events);
  }

  /**
   A batch has at most two passes. One that completes has harvested every loaded group once, in order, and
   then once more, in order, exactly the groups that had stored nothing; one that ends early a beginning of that.
   */
  lemma TwoPassesAtMost(events: seq<Event>, k: nat)
    requires k < |Run(events).batches| && !Active(Run(events).batches[k])
    ensures var batch := Run(events).batches[k];
      && RowsOf(batch.first) <= batch.rows && RowsOf(batch.second) <= Empty(batch.first)
      && (batch.progress.ending == Complete ==>
        RowsOf(batch.first) == batch.rows && RowsOf(batch.second) == Empty(batch.first))
  {
    RunKeeps(events);
    assert Faithful(Run(events).batches[k]);
  }

  // ---------------------------------------------------------------- a batch moves on

  /** The empty groups of a pass are those whose harvest stored nothing, in the order of the harvests. */
  lemma {:induction false} EmptyMeans(pass: seq<Harvested>, h: Harvested)
    ensures Empty(pass + [h]) == if h.stored == 0 then Empty(pass) + [h.row] else Empty(pass)
    ensures forall row :: row in Empty(pass) <==>
      exists i :: 0 <= i < |pass| && pass[i].row == row && pass[i].stored == 0
  {
    assert (pass + [h])[..|pass|] == pass;
    if pass != [] {
      var front, last := pass[..|pass| - 1], pass[|pass| - 1];
      EmptyMeans(front, last);
      assert forall i :: 0 <= i < |pass| ==> pass[i] == if i < |front| then front[i] else last;
      forall row ensures row in Empty(pass) <==>
        exists i :: 0 <= i < |pass| && pass[i].row == row && pass[i].stored == 0 {
        if row in Empty(front) {
          var i :| 0 <= i < |front| && front[i].row == row && front[i].stored == 0;
          assert pass[i] == front[i];
        }
      }
    }
  }

  /** The batch that is under way ended like this, and the flag is down. */
  predicate Ended(b: Bridge, after: Bridge, ending: Ending) {
    && b.batches != [] && |after.batches| == |b.batches| && !after.inFlight && after.lock == b.lock
    && Current(after) == Current(b).(progress := Finished(ending))
  }

  /** A request starts a batch unless one is under way; loading gives it its groups or ends it. */
  lemma BatchStarts(events: seq<Event>, rows: seq<Row>)
    ensures var b := Run(events); var after := Step(b, Request);
      && (b.inFlight ==> after == b)
      && (!b.inFlight ==>
            && after.inFlight && after.batches == b.batches + [Batch(Loading, [], [], false, [])]
              && after.lock == b.lock
            && Current(Step(after, Loaded(rows))) == Batch(Pass(rows, false, 0), rows, [], false, [])
            && Ended(after, Step(after, LoadFails), Error))
  {
  }

  /** In a pass the next group asks for the page lock at the end of the chain. */
  lemma GroupAsks(b: Bridge)
    requires HasActive(b) && Current(b).progress.Pass? && !Current(b).progress.asked && Current(b).progress.todo != []
    ensures var after := Step(b, AskForLock);
      && after.lock.calls == b.lock.calls + [Waiting] && after.lock.started == b.lock.started
      && Current(after) == Current(b).(progress := Pass(Current(b).progress.todo, true, |b.lock.calls|))
  {
  }

  /** What became of the call that the current group made. */
  predicate OutcomeIs(b: Bridge, outcome: Outcome) {
    && HasActive(b) && Current(b).progress.Pass? && Current(b).progress.asked && Current(b).progress.todo != []
    && Current(b).progress.lockCall < |b.lock.calls|
    && (b.lock.calls[Current(b).progress.lockCall] == Phase.Settled(outcome)
        || b.lock.calls[Current(b).progress.lockCall] == Released(outcome))
  }

  /**
   What the group's own callback stored is recorded behind the pass, and the next group is up; an error ends the
   batch.
   */
  lemma GroupIsRecorded(b: Bridge, outcome: Outcome)
    requires OutcomeIs(b, outcome)
    ensures var batch, after := Current(b), Step(b, Resume); var rest := batch.progress.todo[1..];
      match outcome
      case Returned(stored) =>
        var done := Harvested(batch.progress.todo[0], stored);
        && after.batches != []
        && Current(after) == (if batch.retried
             then Batch(Pass(rest, false, 0), batch.rows, batch.first, true, batch.second + [done])
             else Batch(Pass(rest, false, 0), batch.rows, batch.first + [done], false, batch.second))
      case Threw(_) => Ended(b, after, Error)
  {
  }

  /** A pass without groups left is followed by a second one over the empty groups, if any and if the client lives. */
  lemma PassIsFollowed(b: Bridge)
    requires HasActive(b) && Current(b).progress.Pass? && Current(b).progress.todo == []
    ensures var batch, after := Current(b), Step(b, PassEnds);
      if batch.retried || Empty(batch.first) == [] then Ended(b, after, Complete)
      else
        && after.batches != [] && Current(after) == batch.(progress := Sleeping)
        && Ended(after, Step(after, Wake(false)), ClientGone)
        && Step(after, Wake(true)).batches != []
        && Current(Step(after, Wake(true))) ==
             Batch(Pass(Empty(batch.first), false, 0), batch.rows, batch.first, true, batch.second)
  {
  }

  /** A batch that is under way can always take a step, or its group waits for its turn on the page. */
  lemma BatchNeverStuck(events: seq<Event>)
    requires HasActive(Run(events))
    ensures var b := Run(events);
      || (Current(b).progress.Pass? && Current(b).progress.asked && Current(b).progress.todo != []
          && forall outcome :: !OutcomeIs(b, outcome))
      || exists e: Event :: !e.OnLock? && !e.Request? && Step(b, e) != b
  {
    var b := Run(events);
    RunKeeps(events);
    match Current(b).progress
    case Loading =>
      assert !Active(Current(Step(b, LoadFails)));
    case Sleeping =>
      assert !Active(Current(Step(b, Wake(false))));
    case Pass(todo, asked, call) =>
      if todo == [] {
        PassIsFollowed(b);
        assert Current(Step(b, PassEnds)).progress != Current(b).progress;
      } else if !asked {
        GroupAsks(b);
        assert |Step(b, AskForLock).lock.calls| != |b.lock.calls|;
      } else if outcome :| OutcomeIs(b, outcome) {
        GroupIsRecorded(b, outcome);
        assert Current(Step(b, Resume)).progress != Current(b).progress;
      }
  }
}
